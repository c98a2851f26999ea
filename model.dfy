/** The stock-allocation domain: order lines, batches of stock, the
    preference order between batches and the first-fit allocator. */
module Model {
  import opened Wrappers
  import opened Lexicographic

  /** A customer's request for `qty` units of `sku`, part of order
      `orderid`. A value: two lines with the same three fields are equal. */
  datatype OrderLine = OrderLine(orderid: string, sku: string, qty: int)

  /** The domain exceptions, and the lookup failures the services let escape. */
  datatype Error =
    | OutOfStock(sku: string)        // no batch can take the line
    | UnallocatedSku(sku: string)    // deallocating a line the batch does not hold
    | InvalidSku(sku: string)        // the service layer knows no batch of this sku
    | BatchNotFound(ref: string)     // a repository lookup by reference found nothing
    | EmptyAllocations               // popping a line from a batch that holds none

  /** The text each domain exception carries. */
  function Message(e: Error): (r: string)
    ensures !e.EmptyAllocations? ==>
              var key := if e.BatchNotFound? then e.ref else e.sku;
              |key| < |r| && r[|r| - |key|..] == key
  {
    match e
    case OutOfStock(sku) => "Out of stock for " + sku
    case UnallocatedSku(sku) => "Unallocated SKU: " + sku
    case InvalidSku(sku) => "Invalid SKU: " + sku
    case BatchNotFound(ref) => "No batch with reference " + ref
    case EmptyAllocations => "pop from an empty set"
  }

  /** The message names the exception's sku: no two domain exceptions of a
      kind, or of different kinds, carry the same message. */
  lemma MessageIdentifiesSkuFailure(e1: Error, e2: Error)
    requires e1.OutOfStock? || e1.UnallocatedSku? || e1.InvalidSku?
    requires e2.OutOfStock? || e2.UnallocatedSku? || e2.InvalidSku?
    requires Message(e1) == Message(e2)
    ensures e1 == e2
  {
    var m := Message(e1);
    assert m[0] == Message(e2)[0];
    var n := if e1.InvalidSku? then 13 else 17;
    assert e1.sku == m[n..];
    assert e2.sku == Message(e2)[n..];
  }

  // ---------------------------------------------------------------------
  // A total order on order lines: quantity first, then order id, then sku.
  // It is used to sum over a set and to choose which line a batch gives up.

  predicate LineLe(x: OrderLine, y: OrderLine)
  {
    x.qty < y.qty
    || (x.qty == y.qty && x.orderid != y.orderid && LexLe(x.orderid, y.orderid))
    || (x.qty == y.qty && x.orderid == y.orderid && LexLe(x.sku, y.sku))
  }

  lemma LineLeIsTotalOrder()
    ensures forall x, y :: LineLe(x, y) || LineLe(y, x)
    ensures forall x, y :: LineLe(x, y) && LineLe(y, x) ==> x == y
    ensures forall x, y, z :: LineLe(x, y) && LineLe(y, z) ==> LineLe(x, z)
  {
    forall x, y ensures LineLe(x, y) || LineLe(y, x) {
      LexLeTotal(x.orderid, y.orderid);
      LexLeTotal(x.sku, y.sku);
    }
    forall x, y | LineLe(x, y) && LineLe(y, x) ensures x == y {
      if x.orderid != y.orderid {
        LexLeAntisymmetric(x.orderid, y.orderid);
      } else {
        LexLeAntisymmetric(x.sku, y.sku);
      }
    }
    forall x, y, z | LineLe(x, y) && LineLe(y, z) ensures LineLe(x, z) {
      if x.qty == y.qty == z.qty {
        if x.orderid == y.orderid == z.orderid {
          LexLeTransitive(x.sku, y.sku, z.sku);
        } else if x.orderid == z.orderid {
          LexLeAntisymmetric(x.orderid, y.orderid);
        } else if x.orderid != y.orderid && y.orderid != z.orderid {
          LexLeTransitive(x.orderid, y.orderid, z.orderid);
        }
      }
    }
  }

  /** Every non-empty set of lines has a greatest line. */
  lemma {:induction false} GreatestLineExists(s: set<OrderLine>)
    requires s != {}
    ensures exists m :: m in s && forall x :: x in s ==> LineLe(x, m)
    decreases |s|
  {
    LineLeIsTotalOrder();
    var y :| y in s;
    if s != {y} {
      GreatestLineExists(s - {y});
      var m :| m in s - {y} && forall x :: x in s - {y} ==> LineLe(x, m);
      if LineLe(y, m) {
        assert forall x :: x in s ==> LineLe(x, m);
      } else {
        assert forall x :: x in s ==> LineLe(x, y);
      }
    } else {
      assert forall x :: x in s ==> LineLe(x, y);
    }
  }

  /** The greatest line of a non-empty set; the order makes it unique. */
  function MaxLine(s: set<OrderLine>): (m: OrderLine)
    requires s != {}
    ensures m in s && forall x :: x in s ==> LineLe(x, m)
  {
    GreatestLineExists(s);
    LineLeIsTotalOrder();
    var m :| m in s && forall x :: x in s ==> LineLe(x, m);
    m
  }

  lemma MaxLineOfSubset(s: set<OrderLine>, t: set<OrderLine>)
    requires t <= s && s != {} && MaxLine(s) in t
    ensures MaxLine(t) == MaxLine(s)
  {
    LineLeIsTotalOrder();
  }

  /** `sum(line.qty for line in lines)`, summing in decreasing line order. */
  function SumQty(lines: set<OrderLine>): (r: int)
    ensures lines == {} ==> r == 0
    decreases |lines|
  {
    if lines == {} then 0
    else
      var m := MaxLine(lines);
      m.qty + SumQty(lines - {m})
  }

  /** With no negative quantities the sum is not negative and bounds
      every quantity in it. */
  lemma {:induction false} SumQtyBounds(lines: set<OrderLine>)
    requires forall l :: l in lines ==> l.qty >= 0
    ensures 0 <= SumQty(lines)
    ensures forall l :: l in lines ==> l.qty <= SumQty(lines)
    decreases |lines|
  {
    if lines != {} {
      SumQtyBounds(lines - {MaxLine(lines)});
    }
  }

  /** The sum does not depend on the order of summation: any line of the set
      may be taken out first. */
  lemma {:induction false} SumQtyRemove(lines: set<OrderLine>, l: OrderLine)
    requires l in lines
    ensures SumQty(lines) == l.qty + SumQty(lines - {l})
    decreases |lines|
  {
    var m := MaxLine(lines);
    if l != m {
      SumQtyRemove(lines - {m}, l);
      MaxLineOfSubset(lines, lines - {l});
      assert lines - {m} - {l} == lines - {l} - {m};
    }
  }

  lemma SumQtyAdd(lines: set<OrderLine>, l: OrderLine)
    requires l !in lines
    ensures SumQty(lines + {l}) == SumQty(lines) + l.qty
  {
    SumQtyRemove(lines + {l}, l);
    assert lines + {l} - {l} == lines;
  }

  // ---------------------------------------------------------------------

  /** A batch of stock the purchasing department has ordered. Its identity
      is its reference; what it holds changes as lines are allocated. */
  class Batch {
    const ref: string
    const sku: string
    /** Estimated day of arrival; `None` means the stock is in the warehouse. */
    const eta: Option<int>
    var purchasedQty: int
    var allocations: set<OrderLine>

    constructor (ref: string, sku: string, qty: int, eta: Option<int>)
      ensures this.ref == ref && this.sku == sku && this.eta == eta
      ensures purchasedQty == qty && allocations == {}
    {
      this.ref := ref;
      this.sku := sku;
      this.eta := eta;
      purchasedQty := qty;
      allocations := {};
    }

    /** The quantity promised to the allocated lines. */
    function AllocatedQty(): (r: int)
      reads this
      ensures allocations == {} ==> r == 0
      ensures (forall l :: l in allocations ==> l.qty >= 0) ==>
                0 <= r && forall l :: l in allocations ==> l.qty <= r
    {
      if forall l :: l in allocations ==> l.qty >= 0 then
        SumQtyBounds(allocations);
        SumQty(allocations)
      else
        SumQty(allocations)
    }

    /** What is left of the purchased quantity once the allocated lines
        are served. */
    function AvailableQty(): (r: int)
      reads this
      ensures allocations == {} ==> r == purchasedQty
      ensures (forall l :: l in allocations ==> l.qty >= 0) ==> r <= purchasedQty
    {
      purchasedQty - AllocatedQty()
    }

    /** The line is of this batch's sku, and serving it would leave the
        available quantity non-negative. */
    predicate CanAllocate(line: OrderLine): (r: bool)
      reads this
      ensures r <==> line.sku == sku && AvailableQty() - line.qty >= 0
    {
      sku == line.sku && AvailableQty() >= line.qty
    }

    /** The batch holds the line, and then the line's quantity is part of
        the allocated quantity. */
    predicate HasBeenAllocated(line: OrderLine): (r: bool)
      reads this
      ensures r <==> line in allocations
      ensures r ==> AllocatedQty() == line.qty + SumQty(allocations - {line})
    {
      if line in allocations then SumQtyRemove(allocations, line); true else false
    }

    /** Adds the line when the batch can take it and otherwise does nothing.
        Allocation never leaves a batch short: either the available quantity
        is unchanged or it is still non-negative. */
    method Allocate(line: OrderLine)
      modifies this`allocations
      ensures allocations == if old(CanAllocate(line)) then old(allocations) + {line} else old(allocations)
      ensures AvailableQty() == if old(CanAllocate(line)) && line !in old(allocations)
                                then old(AvailableQty()) - line.qty else old(AvailableQty())
      ensures AvailableQty() == old(AvailableQty()) || AvailableQty() >= 0
    {
      if CanAllocate(line) {
        if line in allocations {
          assert allocations + {line} == allocations;
        } else {
          SumQtyAdd(allocations, line);
        }
        allocations := allocations + {line};
      }
    }

    /** Removes the line `(orderid, sku, qty)`, raising `UnallocatedSKU`
        naming the sku when the batch does not hold it. */
    method Deallocate(orderid: string, sku: string, qty: int) returns (r: Outcome<Error>)
      modifies this`allocations
      ensures var line := OrderLine(orderid, sku, qty);
              if line in old(allocations) then
                r == Pass && allocations == old(allocations) - {line}
                && AvailableQty() == old(AvailableQty()) + qty
              else
                r == Fail(UnallocatedSku(sku)) && allocations == old(allocations)
    {
      var line := OrderLine(orderid, sku, qty);
      if !HasBeenAllocated(line) {
        return Fail(UnallocatedSku(sku));
      }
      SumQtyRemove(allocations, line);
      allocations := allocations - {line};
      r := Pass;
    }

    /** Sets the purchased quantity; allocations are left as they are, so
        the available quantity may become negative. */
    method ChangePurchasedQuantity(newQty: int)
      modifies this`purchasedQty
      ensures purchasedQty == newQty
      ensures AvailableQty() == old(AvailableQty()) + (newQty - old(purchasedQty))
    {
      purchasedQty := newQty;
    }

    /** Gives up one allocated line: the greatest one under `LineLe` (largest
        quantity first). Popping from an empty set raises. */
    method DeallocateOne() returns (r: Result<OrderLine, Error>)
      modifies this`allocations
      ensures old(allocations) == {} ==> r == Err(EmptyAllocations) && allocations == {}
      ensures old(allocations) != {} ==>
                r == Ok(MaxLine(old(allocations)))
                && allocations == old(allocations) - {r.value}
                && AvailableQty() == old(AvailableQty()) + r.value.qty
    {
      if allocations == {} {
        return Err(EmptyAllocations);
      }
      var line := MaxLine(allocations);
      SumQtyRemove(allocations, line);
      allocations := allocations - {line};
      r := Ok(line);
    }

    /** Identity equality: any object that is a batch with the same reference. */
    predicate Equals(other: object?): (r: bool)
      ensures r ==> other is Batch && (other as Batch).HashKey() == HashKey()
      ensures other == this ==> r
    {
      other is Batch && (other as Batch).ref == ref
    }

    /** The key the batch hashes by: its reference. */
    function HashKey(): string
    {
      ref
    }

    /** `self > other` in preference terms: `self` is the less preferred one,
        arriving strictly later (an undated batch is never greater, and every
        dated batch is greater than an undated one). */
    predicate Gt(other: Batch): (r: bool)
      ensures r ==> eta.Some? && (other.eta.Some? ==> other.eta.value < eta.value)
      ensures eta.Some? && other.eta.None? ==> r
    {
      if eta.None? then false
      else if other.eta.None? then true
      else eta.value > other.eta.value
    }
  }

  /** Batch identity ignores everything but the reference, and equal
      batches hash alike. */
  lemma EqualityIsByReference(a: Batch, b: Batch)
    ensures a.Equals(b) <==> a.ref == b.ref
    ensures a.Equals(b) ==> b.Equals(a) && a.HashKey() == b.HashKey()
  {
  }

  /** Allocating the same line twice: the second call changes neither the
      allocations nor the available quantity. */
  method AllocateTwice(batch: Batch, line: OrderLine)
    modifies batch`allocations
    ensures batch.allocations == if old(batch.CanAllocate(line)) then old(batch.allocations) + {line}
                                 else old(batch.allocations)
    ensures old(batch.CanAllocate(line)) ==> batch.HasBeenAllocated(line)
  {
    batch.Allocate(line);
    ghost var once := batch.allocations;
    ghost var available := batch.AvailableQty();
    batch.Allocate(line);
    assert batch.allocations == once && batch.AvailableQty() == available;
  }

  /** Allocating a line the batch can take and does not hold, then
      deallocating it, gives back the available quantity it had. */
  method AllocateThenDeallocate(batch: Batch, line: OrderLine) returns (r: Outcome<Error>)
    requires batch.CanAllocate(line) && !batch.HasBeenAllocated(line)
    modifies batch`allocations
    ensures r == Pass
    ensures batch.allocations == old(batch.allocations)
    ensures batch.AvailableQty() == old(batch.AvailableQty())
  {
    batch.Allocate(line);
    assert batch.AvailableQty() == old(batch.AvailableQty()) - line.qty;
    r := batch.Deallocate(line.orderid, line.sku, line.qty);
    assert old(batch.allocations) + {line} - {line} == old(batch.allocations);
  }

  // ---------------------------------------------------------------------
  // The preference order and Python's stable sort.

  /** Python's `a < b` on batches: there is no `__lt__`, so it resolves to
      the reflected `b.__gt__(a)`. `a` is strictly preferred to `b`. */
  predicate Before(a: Batch, b: Batch): (r: bool)
    ensures r <==> NoLaterThan(a, b) && !NoLaterThan(b, a)
  {
    b.Gt(a)
  }

  /** `a` is preferred over `b`, spelled out on the arrival dates. */
  predicate NoLaterThan(a: Batch, b: Batch)
  {
    a.eta.None? || (b.eta.Some? && a.eta.value <= b.eta.value)
  }

  lemma BeforeIsStrictWeakOrder()
    ensures forall a, b :: !Before(a, b) <==> NoLaterThan(b, a)
    ensures forall a :: !Before(a, a)
    ensures forall a, b, c :: Before(a, b) && Before(b, c) ==> Before(a, c)
    ensures forall a, b, c :: !Before(a, b) && !Before(b, c) ==> !Before(a, c)
  {
  }

  ghost predicate Ordered(s: seq<Batch>)
  {
    forall i, j :: 0 <= i < j < |s| ==> !Before(s[j], s[i])
  }

  /** Puts `x` in front of the first element that is not strictly preferred
      to it, so `x` stays ahead of the batches it ties with. */
  function Insert(x: Batch, s: seq<Batch>): (r: seq<Batch>)
    ensures multiset(r) == multiset(s) + multiset{x}
  {
    if s == [] then [x]
    else if Before(s[0], x) then
      assert s == [s[0]] + s[1..];
      [s[0]] + Insert(x, s[1..])
    else
      [x] + s
  }

  lemma {:induction false} InsertKeepsOrder(x: Batch, s: seq<Batch>)
    requires Ordered(s)
    ensures Ordered(Insert(x, s))
  {
    BeforeIsStrictWeakOrder();
    if s != [] && Before(s[0], x) {
      InsertKeepsOrder(x, s[1..]);
      var rest := Insert(x, s[1..]);
      forall j | 0 <= j < |rest| ensures !Before(rest[j], s[0]) {
        assert rest[j] in multiset(rest);
        if rest[j] != x {
          assert rest[j] in multiset(s[1..]);
          var k :| 0 <= k < |s[1..]| && s[1..][k] == rest[j];
          assert s[k + 1] == rest[j];
        }
      }
    }
  }

  /** `sorted(batches)`: a stable insertion sort under `Before`. */
  function SortByPreference(s: seq<Batch>): (r: seq<Batch>)
    ensures multiset(r) == multiset(s)
    ensures Ordered(r)
  {
    if s == [] then []
    else
      assert s == [s[0]] + s[1..];
      InsertKeepsOrder(s[0], SortByPreference(s[1..]));
      Insert(s[0], SortByPreference(s[1..]))
  }

  /** `next(b for b in s if b.can_allocate(line))`: the first batch of `s`
      that can take the line. */
  function FirstFit(s: seq<Batch>, line: OrderLine): (r: Option<Batch>)
    reads s
    ensures r.Some? ==> r.value in s && r.value.CanAllocate(line)
    ensures r.None? <==> forall b :: b in s ==> !b.CanAllocate(line)
  {
    if s == [] then None
    else if s[0].CanAllocate(line) then Some(s[0])
    else FirstFit(s[1..], line)
  }

  /** An independent statement of which batch the allocator picks, read
      straight off the unsorted list: the earliest batch, in list order,
      among the most preferred batches that can take the line. */
  function BestFit(s: seq<Batch>, line: OrderLine): (r: Option<Batch>)
    reads s
    ensures r.Some? ==> r.value in s && r.value.CanAllocate(line)
  {
    if s == [] then None
    else
      var rest := BestFit(s[1..], line);
      if s[0].CanAllocate(line) && (rest.None? || !Before(rest.value, s[0])) then Some(s[0])
      else rest
  }

  /** What `BestFit` promises: nothing exactly when no batch can take the
      line; otherwise a batch that can, that arrives no later than any other
      batch that can, and that comes first in the list among those that tie
      with it. */
  lemma {:induction false} BestFitIsMostPreferred(s: seq<Batch>, line: OrderLine)
    ensures BestFit(s, line).None? <==> forall b :: b in s ==> !b.CanAllocate(line)
    ensures BestFit(s, line).Some? ==>
              var c := BestFit(s, line).value;
              c in s && c.CanAllocate(line)
              && (forall b :: b in s && b.CanAllocate(line) ==> NoLaterThan(c, b))
              && exists i :: 0 <= i < |s| && s[i] == c
                             && forall k :: 0 <= k < i && s[k].CanAllocate(line) ==> Before(c, s[k])
  {
    BeforeIsStrictWeakOrder();
    if s != [] {
      BestFitIsMostPreferred(s[1..], line);
      assert s == [s[0]] + s[1..];
      var r := BestFit(s, line);
      if r == Some(s[0]) {
        assert s[0] == r.value;
      } else if r.Some? {
        var c := r.value;
        var i :| 0 <= i < |s[1..]| && s[1..][i] == c
                 && forall k :: 0 <= k < i && s[1..][k].CanAllocate(line) ==> Before(c, s[1..][k]);
        assert s[i + 1] == c;
        assert forall k :: 0 <= k < i + 1 && s[k].CanAllocate(line) ==> Before(c, s[k]) by {
          forall k | 0 <= k < i + 1 && s[k].CanAllocate(line) ensures Before(c, s[k]) {
            if k > 0 {
              assert s[k] == s[1..][k - 1];
            }
          }
        }
      }
    }
  }

  /** Taking the first fit of a list kept in preference order, after one more
      batch was inserted into it. */
  lemma {:induction false} FirstFitInsert(x: Batch, t: seq<Batch>, line: OrderLine)
    requires Ordered(t)
    ensures var f := FirstFit(t, line);
            FirstFit(Insert(x, t), line) ==
              if x.CanAllocate(line) && (f.None? || !Before(f.value, x)) then Some(x) else f
  {
    BeforeIsStrictWeakOrder();
    if t != [] {
      if Before(t[0], x) {
        assert Insert(x, t) == [t[0]] + Insert(x, t[1..]);
        if !t[0].CanAllocate(line) {
          FirstFitInsert(x, t[1..], line);
        }
      } else {
        var f := FirstFit(t, line);
        if f.Some? {
          var j :| 0 <= j < |t| && t[j] == f.value;
          assert !Before(t[j], t[0]) || j == 0;
        }
      }
    }
  }

  /** Sorting and then taking the first fit picks exactly `BestFit`. */
  lemma {:induction false} FirstFitOfSortedIsBestFit(s: seq<Batch>, line: OrderLine)
    ensures FirstFit(SortByPreference(s), line) == BestFit(s, line)
  {
    if s != [] {
      FirstFitOfSortedIsBestFit(s[1..], line);
      FirstFitInsert(s[0], SortByPreference(s[1..]), line);
    }
  }

  /** The domain service: sort the batches, allocate the line to the first
      that can take it and return its reference, or raise `OutOfStock`
      naming the sku and change nothing. */
  method Allocate(orderid: string, sku: string, qty: int, batches: seq<Batch>)
    returns (r: Result<string, Error>)
    requires |batches| > 0
    modifies batches
    ensures var line := OrderLine(orderid, sku, qty);
            match old(BestFit(batches, line))
            case None =>
              r == Err(OutOfStock(sku))
              && forall b :: b in batches ==> b.allocations == old(b.allocations)
            case Some(c) =>
              c in batches && r == Ok(c.ref)
              && c.allocations == old(c.allocations) + {line}
              && forall b :: b in batches && b != c ==> b.allocations == old(b.allocations)
    ensures forall b :: b in batches ==> b.purchasedQty == old(b.purchasedQty)
  {
    var line := OrderLine(orderid, sku, qty);
    var sorted := SortByPreference(batches);
    FirstFitOfSortedIsBestFit(batches, line);
    match FirstFit(sorted, line)
    case None =>
      r := Err(OutOfStock(line.sku));
    case Some(batch) =>
      assert batch in multiset(sorted);
      batch.Allocate(line);
      r := Ok(batch.ref);
  }

  /** The same line allocated twice over an in-stock batch of 15 and a
      shipment of 100: the allocator never asks whether some batch already
      holds the line, so the first call gives it to the in-stock batch and
      the second, finding that batch too short, gives it to the shipment
      as well. */
  method AllocateTwiceOverTwoBatches()
    returns (first: Result<string, Error>, second: Result<string, Error>, inStock: Batch, shipment: Batch)
    ensures first == Ok("B1") && second == Ok("B2")
    ensures var line := OrderLine("O1", "SKU", 10);
            line in inStock.allocations && line in shipment.allocations
  {
    var line := OrderLine("O1", "SKU", 10);
    inStock := new Batch("B1", "SKU", 15, None);
    shipment := new Batch("B2", "SKU", 100, Some(1));
    var batches := [inStock, shipment];
    assert batches[1..] == [shipment] && [shipment][1..] == [];
    assert inStock.CanAllocate(line) && shipment.CanAllocate(line) && Before(inStock, shipment);
    assert BestFit(batches, line) == Some(inStock);
    first := Allocate("O1", "SKU", 10, batches);
    assert inStock.allocations == {} + {line} && shipment.allocations == {};
    SumQtyAdd({}, line);
    assert !inStock.CanAllocate(line) && shipment.CanAllocate(line);
    assert BestFit(batches, line) == Some(shipment);
    second := Allocate("O1", "SKU", 10, batches);
  }
}
