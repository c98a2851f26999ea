/** The first service layer: allocate, add and deallocate over a repository
    of batches and a session that commits. The repository is the in-memory
    one the service tests use: a set of batches hashed by reference. */
module Services {
  import opened Wrappers
  import opened Model

  /** A set of batches hashed by reference, held as a map from reference to
      batch: adding a batch whose reference is already present keeps the
      batch that was there. */
  class FakeRepository {
    var batches: map<string, Batch>

    ghost predicate Valid()
      reads this
    {
      forall ref :: ref in batches ==> batches[ref].ref == ref
    }

    constructor (initial: seq<Batch>)
      ensures Valid()
      ensures batches.Keys == set b | b in initial :: b.ref
      ensures forall ref :: ref in batches ==> FirstWithRef(initial, ref, batches[ref])
    {
      batches := map[];
      new;
      var i := 0;
      while i < |initial|
        invariant 0 <= i <= |initial|
        invariant fresh(this)
        invariant Valid()
        invariant batches.Keys == set b | b in initial[..i] :: b.ref
        invariant forall ref :: ref in batches ==> FirstWithRef(initial[..i], ref, batches[ref])
      {
        ghost var before := batches;
        Add(initial[i]);
        FirstWithRefAdd(initial[..i], initial[i], before, batches);
        assert initial[..i + 1] == initial[..i] + [initial[i]];
        i := i + 1;
      }
      assert initial[..i] == initial;
    }

    method Add(batch: Batch)
      requires Valid()
      modifies this
      ensures Valid()
      ensures batch.ref in old(batches) ==> batches == old(batches)
      ensures batch.ref !in old(batches) ==> batches == old(batches)[batch.ref := batch]
    {
      if batch.ref !in batches {
        batches := batches[batch.ref := batch];
      }
    }

    /** `next(b for b in batches if b.ref == ref)`: the batch with that
        reference, or the failed lookup when there is none. */
    function Get(ref: string): (r: Result<Batch, Error>)
      requires Valid()
      reads this
      ensures r.Ok? ==> r.value in batches.Values && r.value.ref == ref
      ensures r.Err? ==> r == Err(BatchNotFound(ref))
                         && forall b :: b in batches.Values ==> b.ref != ref
    {
      if ref in batches then Ok(batches[ref]) else Err(BatchNotFound(ref))
    }

    /** `list(batches)`: every batch exactly once, in no particular order. */
    method List() returns (s: seq<Batch>)
      requires Valid()
      ensures forall b :: b in s <==> b in batches.Values
      ensures |s| == |batches|
    {
      s := [];
      var left := batches.Keys;
      while left != {}
        invariant left <= batches.Keys
        invariant forall b :: b in s <==> exists ref :: ref in batches.Keys - left && batches[ref] == b
        invariant |s| == |batches.Keys - left|
        decreases |left|
      {
        var ref :| ref in left;
        assert batches[ref] !in s;
        assert batches.Keys - (left - {ref}) == (batches.Keys - left) + {ref};
        s := s + [batches[ref]];
        left := left - {ref};
      }
      assert batches.Keys - left == batches.Keys;
    }
  }

  /** `b` is the first batch of `s` with reference `ref`: the one a set
      built from `s` keeps. */
  ghost predicate FirstWithRef(s: seq<Batch>, ref: string, b: Batch)
  {
    exists i :: 0 <= i < |s| && s[i] == b && b.ref == ref
                && forall k :: 0 <= k < i ==> s[k].ref != ref
  }

  /** Adding one more batch to a map that keeps the first batch of `s` for
      each reference keeps the first batch of `s + [x]`. */
  lemma FirstWithRefAdd(s: seq<Batch>, x: Batch, m: map<string, Batch>, m': map<string, Batch>)
    requires m.Keys == set b | b in s :: b.ref
    requires forall ref :: ref in m ==> FirstWithRef(s, ref, m[ref])
    requires m' == if x.ref in m then m else m[x.ref := x]
    ensures m'.Keys == set b | b in s + [x] :: b.ref
    ensures forall ref :: ref in m' ==> FirstWithRef(s + [x], ref, m'[ref])
  {
    forall ref | ref in m'
      ensures FirstWithRef(s + [x], ref, m'[ref])
    {
      if ref in m {
        var i :| 0 <= i < |s| && s[i] == m[ref] && m[ref].ref == ref
                 && forall k :: 0 <= k < i ==> s[k].ref != ref;
        assert (s + [x])[i] == s[i];
      } else {
        assert ref == x.ref && m'[ref] == x;
        forall k | 0 <= k < |s|
          ensures s[k].ref != ref
        {
          assert s[k] in s;
        }
        assert (s + [x])[|s|] == x;
      }
    }
  }

  /** The session the tests pass in: it only records that it was committed. */
  class FakeSession {
    var committed: bool

    constructor ()
      ensures !committed
    {
      committed := false;
    }

    method Commit()
      modifies this
      ensures committed
    {
      committed := true;
    }
  }

  /** The line's sku is among the skus of the batches. */
  function IsValidSku(line: OrderLine, batches: seq<Batch>): (r: bool)
    ensures r <==> exists i :: 0 <= i < |batches| && batches[i].sku == line.sku
    ensures r ==> |batches| > 0
  {
    line.sku in (set b | b in batches :: b.sku)
  }

  /** Validates the sku, then hands the line to the domain allocator and
      commits. An unknown sku raises `InvalidSKU` before any batch is
      touched; `OutOfStock` from the allocator escapes before the commit. */
  method Allocate(line: OrderLine, repo: FakeRepository, session: FakeSession)
    returns (r: Result<string, Error>, ghost chosen: Batch?)
    requires repo.Valid()
    modifies session, repo.batches.Values
    ensures r == Err(InvalidSku(line.sku)) <==> forall b :: b in repo.batches.Values ==> b.sku != line.sku
    ensures r.Err? ==> r == Err(InvalidSku(line.sku)) || r == Err(OutOfStock(line.sku))
    ensures r.Err? ==>
              session.committed == old(session.committed)
              && forall b :: b in repo.batches.Values ==> b.allocations == old(b.allocations)
    ensures r == Err(OutOfStock(line.sku)) <==>
              (exists b :: b in repo.batches.Values && b.sku == line.sku)
              && forall b :: b in repo.batches.Values ==> !old(b.CanAllocate(line))
    ensures r.Ok? ==>
              session.committed
              && var c := chosen;
                 c != null && c in repo.batches.Values && c.ref == r.value
                   && old(c.CanAllocate(line))
                   && c.allocations == old(c.allocations) + {line}
                   && (forall b :: b in repo.batches.Values && b != c ==> b.allocations == old(b.allocations))
                   && (forall b :: b in repo.batches.Values && old(b.CanAllocate(line)) ==> NoLaterThan(c, b))
    ensures forall b :: b in repo.batches.Values ==> b.purchasedQty == old(b.purchasedQty)
  {
    var batches := repo.List();
    chosen := null;
    if !IsValidSku(line, batches) {
      r := Err(InvalidSku(line.sku));
    } else {
      BestFitIsMostPreferred(batches, line);
      ghost var choice := BestFit(batches, line);
      r := Model.Allocate(line.orderid, line.sku, line.qty, batches);
      if r.Ok? {
        chosen := choice.value;
        session.Commit();
      }
    }
  }

  /** Adds the batch to the repository, then commits. */
  method AddBatch(batch: Batch, repo: FakeRepository, session: FakeSession)
    requires repo.Valid()
    modifies repo, session
    ensures repo.Valid()
    ensures repo.batches == if batch.ref in old(repo.batches) then old(repo.batches)
                            else old(repo.batches)[batch.ref := batch]
    ensures session.committed
  {
    repo.Add(batch);
    session.Commit();
  }

  /** Fetches the batch by reference and removes the line from it; commits
      only when neither the lookup nor the removal raised. */
  method Deallocate(line: OrderLine, ref: string, repo: FakeRepository, session: FakeSession)
    returns (r: Outcome<Error>)
    requires repo.Valid()
    modifies session, repo.batches.Values
    ensures ref !in repo.batches ==>
              r == Fail(BatchNotFound(ref)) && session.committed == old(session.committed)
    ensures ref in repo.batches ==>
              var b := repo.batches[ref];
              if line in old(b.allocations) then
                r == Pass && session.committed
                && b.allocations == old(b.allocations) - {line}
                && b.AvailableQty() == old(b.AvailableQty()) + line.qty
              else
                r == Fail(UnallocatedSku(line.sku)) && session.committed == old(session.committed)
                && b.allocations == old(b.allocations)
    ensures forall b :: b in repo.batches.Values && b.ref != ref ==> b.allocations == old(b.allocations)
    ensures forall b :: b in repo.batches.Values ==> b.purchasedQty == old(b.purchasedQty)
  {
    var found := repo.Get(ref);
    if found.Err? {
      return Fail(found.error);
    }
    var batch := found.value;
    r := batch.Deallocate(line.orderid, line.sku, line.qty);
    if r.Fail? {
      return;
    }
    session.Commit();
  }
}
