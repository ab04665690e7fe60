/** Properties of the allocator: which keys the configuration holds, step
    alignment and bounds of every quantity, the total never passing the
    target and always equal to the sum of the quantities, and what the
    top-up pass can and cannot change. */
module RandomPickProofs {
  import opened Quantities
  import opened RandomPick

  // ---------------------------------------------------------------------
  // Vocabulary

  /** The sum of the quantities recorded in a configuration. */
  ghost function SumQuantities(m: Config): int
    decreases |m|
  {
    if m == map[] then 0
    else
      var k :| k in m;
      m[k].quantity + SumQuantities(m - {k})
  }

  /** No two child items share an identity. */
  ghost predicate DistinctIdentities(items: seq<ChildItem>)
  {
    forall i, j :: 0 <= i < j < |items| ==> Identity(items[i]) != Identity(items[j])
  }

  /** The identities of the in-stock items among the first n. */
  ghost function InStockIds(items: seq<ChildItem>, n: nat): set<nat>
    requires n <= |items|
  {
    set j | 0 <= j < n && items[j].inStock :: Identity(items[j])
  }

  /** What pass 1 records for item c: its own product and variation ids and a
      step-aligned quantity within the item's bounds. */
  ghost predicate FirstPassEntry(c: ChildItem, share: nat, e: Entry)
  {
    && e.productId == c.productId
    && e.variationId == c.variationId
    && e.quantity % Step(c) == 0
    && ItemMin(c, share) <= e.quantity <= ItemMax(c, share)
    && (ItemMin(c, share) >= 1 ==> e.quantity >= Step(c))
  }

  /** What holds of the tally once pass 1 has walked past the first i items
      without stopping. */
  ghost predicate FirstPassInvariant(items: seq<ChildItem>, i: nat, share: nat, t2: int, st: Tally)
  {
    && i <= |items|
    && 0 <= st.total
    && 2 * st.total <= t2
    && st.config.Keys == InStockIds(items, i)
    && (DistinctIdentities(items) ==>
          && st.total == SumQuantities(st.config)
          && forall j :: 0 <= j < i && items[j].inStock && Identity(items[j]) in st.config ==>
               FirstPassEntry(items[j], share, st.config[Identity(items[j])]))
  }

  // ---------------------------------------------------------------------
  // Sums of quantities

  lemma {:induction false} SumRemove(m: Config, k: nat)
    requires k in m
    ensures SumQuantities(m) == m[k].quantity + SumQuantities(m - {k})
    decreases |m|
  {
    var k' :| k' in m && SumQuantities(m) == m[k'].quantity + SumQuantities(m - {k'});
    if k' != k {
      assert (m - {k'}) - {k} == (m - {k}) - {k'};
      SumRemove(m - {k'}, k);
      SumRemove(m - {k}, k');
    }
  }

  lemma SumInsert(m: Config, k: nat, e: Entry)
    requires k !in m
    ensures SumQuantities(m[k := e]) == SumQuantities(m) + e.quantity
  {
    SumRemove(m[k := e], k);
    assert m[k := e] - {k} == m;
  }

  lemma SumUpdate(m: Config, k: nat, e: Entry)
    requires k in m
    ensures SumQuantities(m[k := e]) == SumQuantities(m) - m[k].quantity + e.quantity
  {
    SumRemove(m[k := e], k);
    SumRemove(m, k);
    assert m[k := e] - {k} == m - {k};
  }

  lemma InStockIdsNext(items: seq<ChildItem>, n: nat)
    requires n < |items|
    ensures InStockIds(items, n + 1)
         == InStockIds(items, n) + (if items[n].inStock then {Identity(items[n])} else {})
  {
  }

  // ---------------------------------------------------------------------
  // Pass 1

  /** One in-stock item keeps the pass-1 invariant: its entry is fresh, of
      its own, step-aligned and within its bounds, and the total grows by
      exactly its quantity. */
  lemma FirstPassItemKeeps(items: seq<ChildItem>, i: nat, share: nat, t2: int, raw: nat, st: Tally)
    requires i < |items| && items[i].inStock
    requires FirstPassInvariant(items, i, share, t2, st)
    ensures FirstPassItem(items[i], i, share, t2, raw, st).Allocated? ==>
      FirstPassInvariant(items, i + 1, share, t2, FirstPassItem(items[i], i, share, t2, raw, st).tally)
  {
    var r := FirstPassItem(items[i], i, share, t2, raw, st);
    if r.Allocated? {
      var next, c := r.tally, items[i];
      var e := Entry(c.productId, c.variationId, next.total - st.total);
      assert next.config == st.config[Identity(c) := e];
      InStockIdsNext(items, i);
      if DistinctIdentities(items) {
        FirstPassItemEntries(items, i, share, st, e, next);
      }
    }
  }

  /** With distinct identities, recording a fresh, well-formed entry for the
      item at position i keeps the sum and the entries of the items before
      it. */
  lemma FirstPassItemEntries(items: seq<ChildItem>, i: nat, share: nat, st: Tally, e: Entry, next: Tally)
    requires i < |items| && items[i].inStock
    requires DistinctIdentities(items)
    requires st.config.Keys == InStockIds(items, i)
    requires st.total == SumQuantities(st.config)
    requires forall j :: 0 <= j < i && items[j].inStock && Identity(items[j]) in st.config ==>
               FirstPassEntry(items[j], share, st.config[Identity(items[j])])
    requires FirstPassEntry(items[i], share, e)
    requires next == Tally(st.config[Identity(items[i]) := e], st.total + e.quantity)
    ensures next.total == SumQuantities(next.config)
    ensures forall j :: 0 <= j < i + 1 && items[j].inStock && Identity(items[j]) in next.config ==>
              FirstPassEntry(items[j], share, next.config[Identity(items[j])])
  {
    FreshIdentity(items, i, st.config.Keys);
    SumInsert(st.config, Identity(items[i]), e);
    forall j | 0 <= j < i + 1 && items[j].inStock && Identity(items[j]) in next.config
      ensures FirstPassEntry(items[j], share, next.config[Identity(items[j])])
    {
      if j < i {
        assert Identity(items[j]) != Identity(items[i]);
      }
    }
  }

  /** Skipping an out-of-stock item keeps the pass-1 invariant. */
  lemma FirstPassSkipKeeps(items: seq<ChildItem>, i: nat, share: nat, t2: int, st: Tally)
    requires i < |items| && !items[i].inStock
    requires FirstPassInvariant(items, i, share, t2, st)
    ensures FirstPassInvariant(items, i + 1, share, t2, st)
  {
  }

  /** With distinct identities, the item at position i has none of the
      identities of the items before it. */
  lemma FreshIdentity(items: seq<ChildItem>, i: nat, keys: set<nat>)
    requires i < |items|
    requires DistinctIdentities(items)
    requires keys == InStockIds(items, i)
    ensures Identity(items[i]) !in keys
  {
  }

  /** Pass 1 from position i keeps its invariant, and reports how far it
      walked: p items, with p short of the whole list only when the target
      was reached. */
  lemma {:induction false} FirstPassKeeps(items: seq<ChildItem>, i: nat, share: nat, t2: int, rng: nat -> nat, st: Tally)
    returns (p: nat)
    requires FirstPassInvariant(items, i, share, t2, st)
    ensures FirstPassFrom(items, i, share, t2, rng, st).Allocated? ==>
      var done := FirstPassFrom(items, i, share, t2, rng, st).tally;
      && i <= p <= |items|
      && FirstPassInvariant(items, p, share, t2, done)
      && (p < |items| ==> 2 * done.total >= t2)
    decreases |items| - i
  {
    if i == |items| {
      p := i;
    } else if !items[i].inStock {
      FirstPassSkipKeeps(items, i, share, t2, st);
      p := FirstPassKeeps(items, i + 1, share, t2, rng, st);
    } else {
      FirstPassItemKeeps(items, i, share, t2, rng(i), st);
      var r := FirstPassItem(items[i], i, share, t2, rng(i), st);
      if r.Allocated? {
        if 2 * r.tally.total >= t2 {
          p := i + 1;
        } else {
          p := FirstPassKeeps(items, i + 1, share, t2, rng, r.tally);
        }
      } else {
        p := i;
      }
    }
  }

  /** Pass 1 over the whole child list: its keys are exactly the identities
      of the in-stock items among the first p, p is the whole list unless
      the target was reached, the total stays within the target, and with
      distinct identities the total is the sum of the quantities and every
      entry is the item's own, step-aligned and within its bounds. */
  lemma FirstPassProperties(items: seq<ChildItem>, share: nat, t2: int, rng: nat -> nat)
    returns (p: nat)
    requires t2 > 0
    ensures FirstPassFrom(items, 0, share, t2, rng, Tally(map[], 0)).Allocated? ==>
      var done := FirstPassFrom(items, 0, share, t2, rng, Tally(map[], 0)).tally;
      && p <= |items|
      && done.config.Keys == InStockIds(items, p)
      && (p < |items| ==> 2 * done.total >= t2)
      && 0 <= done.total && 2 * done.total <= t2
      && (DistinctIdentities(items) ==>
            && done.total == SumQuantities(done.config)
            && forall j :: 0 <= j < |items| && items[j].inStock && Identity(items[j]) in done.config ==>
                 FirstPassEntry(items[j], share, done.config[Identity(items[j])]))
  {
    assert InStockIds(items, 0) == {};
    p := FirstPassKeeps(items, 0, share, t2, rng, Tally(map[], 0));
    var r := FirstPassFrom(items, 0, share, t2, rng, Tally(map[], 0));
    if r.Allocated? && DistinctIdentities(items) {
      var done := r.tally;
      forall j | 0 <= j < |items| && items[j].inStock && Identity(items[j]) in done.config
        ensures FirstPassEntry(items[j], share, done.config[Identity(items[j])])
      {
      }
    }
  }

  /** Pass 1 stops at the first in-stock item that brings the total to the
      target: once pass 1 has failed or reached the target within the first n
      items, the items after them take no part. */
  lemma {:induction false} FirstPassDecidedByPrefix(items: seq<ChildItem>, n: nat, i: nat, share: nat, t2: int, rng: nat -> nat, st: Tally)
    requires i <= n <= |items|
    requires 2 * st.total < t2
    requires FirstPassFrom(items[..n], i, share, t2, rng, st).Failed?
          || 2 * FirstPassFrom(items[..n], i, share, t2, rng, st).tally.total >= t2
    ensures FirstPassFrom(items, i, share, t2, rng, st) == FirstPassFrom(items[..n], i, share, t2, rng, st)
    decreases n - i
  {
    var prefix := items[..n];
    if i < n {
      assert prefix[i] == items[i];
      if !items[i].inStock {
        FirstPassDecidedByPrefix(items, n, i + 1, share, t2, rng, st);
      } else {
        var r := FirstPassItem(items[i], i, share, t2, rng(i), st);
        if r.Allocated? && 2 * r.tally.total < t2 {
          FirstPassDecidedByPrefix(items, n, i + 1, share, t2, rng, r.tally);
        }
      }
    }
  }

  // ---------------------------------------------------------------------
  // Pass 2

  /** Pass 2 adds no key and removes none; every entry keeps its product and
      variation ids and its quantity never decreases; the total never
      decreases and never passes the target. */
  lemma {:induction false} TopUpKeepsEntries(items: seq<ChildItem>, i: nat, t2: int, st: Tally)
    requires i <= |items|
    ensures TopUpFrom(items, i, t2, st).config.Keys == st.config.Keys
    ensures forall k :: k in st.config ==>
      && TopUpFrom(items, i, t2, st).config[k].productId == st.config[k].productId
      && TopUpFrom(items, i, t2, st).config[k].variationId == st.config[k].variationId
      && TopUpFrom(items, i, t2, st).config[k].quantity >= st.config[k].quantity
    ensures TopUpFrom(items, i, t2, st).total >= st.total
    ensures 2 * st.total <= t2 ==> 2 * TopUpFrom(items, i, t2, st).total <= t2
    decreases |items| - i
  {
    if i < |items| {
      var next := TopUpItem(items[i], t2, st);
      if 2 * next.total < t2 {
        TopUpKeepsEntries(items, i + 1, t2, next);
      }
    }
  }

  /** Pass 2 adds to the total exactly what it adds to the entries. */
  lemma {:induction false} TopUpKeepsSum(items: seq<ChildItem>, i: nat, t2: int, st: Tally)
    requires i <= |items|
    requires st.total == SumQuantities(st.config)
    ensures TopUpFrom(items, i, t2, st).total == SumQuantities(TopUpFrom(items, i, t2, st).config)
    decreases |items| - i
  {
    if i < |items| {
      var c := items[i];
      var next := TopUpItem(c, t2, st);
      if Identity(c) in st.config {
        SumUpdate(st.config, Identity(c), next.config[Identity(c)]);
        assert next.config == st.config[Identity(c) := next.config[Identity(c)]];
      }
      if 2 * next.total < t2 {
        TopUpKeepsSum(items, i + 1, t2, next);
      }
    }
  }

  /** With distinct identities, pass 2 adds to an item's entry only multiples
      of that item's step, so a step-aligned entry stays step-aligned. */
  lemma {:induction false} TopUpKeepsAlignment(items: seq<ChildItem>, i: nat, t2: int, st: Tally, j: nat)
    requires i <= |items| && j < |items|
    requires DistinctIdentities(items)
    requires Identity(items[j]) in st.config
    requires st.config[Identity(items[j])].quantity % Step(items[j]) == 0
    ensures Identity(items[j]) in TopUpFrom(items, i, t2, st).config
    ensures TopUpFrom(items, i, t2, st).config[Identity(items[j])].quantity % Step(items[j]) == 0
    decreases |items| - i
  {
    if i < |items| {
      assert Identity(items[i]) == Identity(items[j]) ==> i == j;
      TopUpItemKeepsAlignment(items[i], t2, st, Identity(items[j]), Step(items[j]));
      var next := TopUpItem(items[i], t2, st);
      if 2 * next.total < t2 {
        TopUpKeepsAlignment(items, i + 1, t2, next, j);
      }
    }
  }

  /** Pass 2 on one item keeps an entry aligned to step s when the item either
      has another identity or has step s. */
  lemma TopUpItemKeepsAlignment(c: ChildItem, t2: int, st: Tally, id: nat, s: nat)
    requires s >= 1 && id in st.config && st.config[id].quantity % s == 0
    requires Identity(c) == id ==> Step(c) == s
    ensures id in TopUpItem(c, t2, st).config
    ensures TopUpItem(c, t2, st).config[id].quantity % s == 0
  {
    var next := TopUpItem(c, t2, st);
    if Identity(c) == id {
      var added := next.total - st.total;
      assert added == s * (added / s);
      AddMultiple(st.config[id].quantity, added / s, s);
    }
  }

  /** Pass 2 leaves no room it could have used: either the target is
      reached, or the gap left is smaller than the step of every item from
      position i on that has an entry. */
  lemma {:induction false} TopUpLeavesNoRoom(items: seq<ChildItem>, i: nat, t2: int, st: Tally)
    requires i <= |items|
    ensures var done := TopUpFrom(items, i, t2, st);
      || 2 * done.total >= t2
      || forall j :: i <= j < |items| && Identity(items[j]) in st.config ==>
           t2 - 2 * done.total < 2 * Step(items[j])
    decreases |items| - i
  {
    if i < |items| {
      var next := TopUpItem(items[i], t2, st);
      if 2 * next.total < t2 {
        TopUpLeavesNoRoom(items, i + 1, t2, next);
        TopUpKeepsEntries(items, i + 1, t2, next);
      }
    }
  }

  // ---------------------------------------------------------------------
  // The whole allocation

  /** The allocated total never passes the target. */
  lemma AllocationWithinTarget(bundle: Container, items: seq<ChildItem>, rng: nat -> nat)
    requires Allocate(bundle, items, rng).Allocated?
    ensures 0 <= Allocate(bundle, items, rng).tally.total
    ensures 2 * Allocate(bundle, items, rng).tally.total <= DoubleTarget(bundle)
  {
    var t2 := DoubleTarget(bundle);
    var share := FairShare(|items|, t2);
    var _ := FirstPassProperties(items, share, t2, rng);
    var st := FirstPassFrom(items, 0, share, t2, rng, Tally(map[], 0)).tally;
    TopUpKeepsEntries(items, 0, t2, st);
  }

  /** Only in-stock items get an entry: every key is the identity of an
      in-stock item, so with distinct identities no out-of-stock item ever
      appears in the configuration. */
  lemma AllocationOnlyInStock(bundle: Container, items: seq<ChildItem>, rng: nat -> nat)
    requires Allocate(bundle, items, rng).Allocated?
    ensures Allocate(bundle, items, rng).tally.config.Keys <= InStockIds(items, |items|)
    ensures DistinctIdentities(items) ==>
      forall j :: 0 <= j < |items| && !items[j].inStock ==>
        Identity(items[j]) !in Allocate(bundle, items, rng).tally.config
  {
    var t2 := DoubleTarget(bundle);
    var share := FairShare(|items|, t2);
    var p := FirstPassProperties(items, share, t2, rng);
    var st := FirstPassFrom(items, 0, share, t2, rng, Tally(map[], 0)).tally;
    TopUpKeepsEntries(items, 0, t2, st);
    var keys := Allocate(bundle, items, rng).tally.config.Keys;
    assert keys == InStockIds(items, p);
    forall x | x in keys ensures x in InStockIds(items, |items|) {
      var j :| 0 <= j < p && items[j].inStock && Identity(items[j]) == x;
    }
    if DistinctIdentities(items) {
      forall j | 0 <= j < |items| && !items[j].inStock ensures Identity(items[j]) !in keys {
        if Identity(items[j]) in keys {
          assert false;
        }
      }
    }
  }

  /** With distinct identities the allocated total is the sum of the
      configuration's quantities. */
  lemma AllocationTotalIsSum(bundle: Container, items: seq<ChildItem>, rng: nat -> nat)
    requires Allocate(bundle, items, rng).Allocated?
    requires DistinctIdentities(items)
    ensures Allocate(bundle, items, rng).tally.total == SumQuantities(Allocate(bundle, items, rng).tally.config)
  {
    var t2 := DoubleTarget(bundle);
    var share := FairShare(|items|, t2);
    var _ := FirstPassProperties(items, share, t2, rng);
    var st := FirstPassFrom(items, 0, share, t2, rng, Tally(map[], 0)).tally;
    TopUpKeepsSum(items, 0, t2, st);
  }

  /** With distinct identities every entry belongs to its in-stock item, is a
      multiple of that item's step, and is at least the item's effective
      minimum, hence at least one step. */
  lemma AllocationStepAligned(bundle: Container, items: seq<ChildItem>, rng: nat -> nat, j: nat)
    requires Allocate(bundle, items, rng).Allocated?
    requires DistinctIdentities(items)
    requires j < |items| && items[j].inStock
    requires Identity(items[j]) in Allocate(bundle, items, rng).tally.config
    ensures var e := Allocate(bundle, items, rng).tally.config[Identity(items[j])];
      && e.productId == items[j].productId
      && e.variationId == items[j].variationId
      && e.quantity % Step(items[j]) == 0
      && e.quantity >= ItemMin(items[j], FairShare(|items|, DoubleTarget(bundle)))
      && e.quantity >= Step(items[j])
  {
    var t2 := DoubleTarget(bundle);
    var share := FairShare(|items|, t2);
    var _ := FirstPassProperties(items, share, t2, rng);
    var st := FirstPassFrom(items, 0, share, t2, rng, Tally(map[], 0)).tally;
    TopUpKeepsEntries(items, 0, t2, st);
    if 2 * st.total < t2 {
      TopUpKeepsAlignment(items, 0, t2, st, j);
    }
  }

  /** The allocation ends at the target, or short of it by less than the step
      of every item that has an entry: the top-up pass used all the room it
      had. */
  lemma AllocationLeavesNoRoom(bundle: Container, items: seq<ChildItem>, rng: nat -> nat)
    requires Allocate(bundle, items, rng).Allocated?
    ensures var done := Allocate(bundle, items, rng).tally;
      || 2 * done.total == DoubleTarget(bundle)
      || forall j :: 0 <= j < |items| && Identity(items[j]) in done.config ==>
           DoubleTarget(bundle) - 2 * done.total < 2 * Step(items[j])
  {
    var t2 := DoubleTarget(bundle);
    var share := FairShare(|items|, t2);
    var _ := FirstPassProperties(items, share, t2, rng);
    var st := FirstPassFrom(items, 0, share, t2, rng, Tally(map[], 0)).tally;
    TopUpKeepsEntries(items, 0, t2, st);
    if 2 * st.total < t2 {
      TopUpLeavesNoRoom(items, 0, t2, st);
    }
  }

  /** When no child item is in stock (in particular for an empty child list)
      the configuration is empty and the total is 0, provided the target is
      not 0. */
  lemma NoStockGivesEmptyConfig(bundle: Container, items: seq<ChildItem>, rng: nat -> nat)
    requires DoubleTarget(bundle) > 0
    requires forall j :: 0 <= j < |items| ==> !items[j].inStock
    ensures Allocate(bundle, items, rng) == Allocated(Tally(map[], 0))
  {
    var t2 := DoubleTarget(bundle);
    var share := FairShare(|items|, t2);
    FirstPassSkipsAll(items, 0, share, t2, rng);
    TopUpWithoutEntries(items, 0, t2, Tally(map[], 0));
  }

  lemma {:induction false} FirstPassSkipsAll(items: seq<ChildItem>, i: nat, share: nat, t2: int, rng: nat -> nat)
    requires i <= |items|
    requires forall j :: i <= j < |items| ==> !items[j].inStock
    ensures FirstPassFrom(items, i, share, t2, rng, Tally(map[], 0)) == Allocated(Tally(map[], 0))
    decreases |items| - i
  {
    if i < |items| {
      FirstPassSkipsAll(items, i + 1, share, t2, rng);
    }
  }

  lemma {:induction false} TopUpWithoutEntries(items: seq<ChildItem>, i: nat, t2: int, st: Tally)
    requires i <= |items|
    requires st.config == map[]
    ensures TopUpFrom(items, i, t2, st) == st
    decreases |items| - i
  {
    if i < |items| {
      TopUpWithoutEntries(items, i + 1, t2, st);
    }
  }

  /** A container with neither a minimum nor a maximum size has target 0, and
      the fair-share division fails even for an empty child list. */
  lemma ZeroTargetFails(items: seq<ChildItem>, rng: nat -> nat)
    ensures Allocate(Container(0, 0), items, rng) == Failed(DivisionByZero)
  {
  }

  // ---------------------------------------------------------------------
  // Worked scenarios

  /** Container sizes 2 to 4 (target 3) with two in-stock items that have a
      maximum of at least 1 and no minimum or step: the fair share is 1, so
      pass 1 gives each item exactly 1, and pass 2 tops the first item up to
      2, whatever the generator returns. With a maximum of 1 the first item
      ends above its own maximum: pass 2 does not look at item maxima. */
  lemma ScenarioTwoItemsTopUp(maxQty: nat, rng: nat -> nat)
    requires maxQty >= 1
    ensures Allocate(Container(2, 4), [ChildItem(10, 0, true, 0, maxQty, 1), ChildItem(20, 0, true, 0, maxQty, 1)], rng)
         == Allocated(Tally(map[10 := Entry(10, 0, 2), 20 := Entry(20, 0, 1)], 3))
  {
    var items := [ChildItem(10, 0, true, 0, maxQty, 1), ChildItem(20, 0, true, 0, maxQty, 1)];
    assert FairShare(2, 6) == 1;
    var first := FirstPassItem(items[0], 0, 1, 6, rng(0), Tally(map[], 0));
    assert DrawRange(items[0], 1, 6, 0) == StepRange(1, 1);
    assert first == Allocated(Tally(map[10 := Entry(10, 0, 1)], 1));
    var second := FirstPassItem(items[1], 1, 1, 6, rng(1), first.tally);
    assert DrawRange(items[1], 1, 6, 1) == StepRange(1, 1);
    assert second == Allocated(Tally(map[10 := Entry(10, 0, 1), 20 := Entry(20, 0, 1)], 2));
    assert FirstPassFrom(items, 2, 1, 6, rng, second.tally) == second;
    assert FirstPassFrom(items, 1, 1, 6, rng, first.tally) == second;
    assert FirstPassFrom(items, 0, 1, 6, rng, Tally(map[], 0)) == second;
    assert TopUpAmount(items[0], 6, 2) == 1;
    assert map[10 := Entry(10, 0, 1), 20 := Entry(20, 0, 1)][10 := Entry(10, 0, 2)]
        == map[10 := Entry(10, 0, 2), 20 := Entry(20, 0, 1)];
  }

  /** One in-stock item with minimum and maximum 2 in a container of size
      exactly 2: the item's maximum is capped at the fair share 1, below its
      minimum, so the draw range is empty and mt_rand fails. */
  lemma ScenarioMinimumAboveFairShare(rng: nat -> nat)
    ensures Allocate(Container(2, 2), [ChildItem(10, 0, true, 2, 2, 1)], rng) == Failed(EmptyDrawRange(0))
  {
  }
}
