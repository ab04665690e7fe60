/** The random-configuration allocator of the Mix and Match "Pick for me"
    button: given the container's size limits and its ordered child items,
    it builds a map from child identity to quantity in two passes.

    The target quantity is the midpoint of the container's minimum and
    maximum size and can be a half-integer, so every comparison with it is
    made in doubled units: `t2` is twice the target and `2 * total` is
    compared with it. */
module RandomPick {
  import opened Quantities

  /** One child item of the container, as the allocator reads it. A zero
      variation id means "not a variation"; a zero step means "unset". */
  datatype ChildItem = ChildItem(
    productId: nat,
    variationId: nat,
    inStock: bool,
    minQty: nat,
    maxQty: nat,
    stepQty: nat)

  /** The container's size limits; a zero maximum means "no maximum". */
  datatype Container = Container(minSize: nat, maxSize: nat)

  /** What the configuration records for one child. */
  datatype Entry = Entry(productId: nat, variationId: nat, quantity: int)

  type Config = map<nat, Entry>

  /** The allocator's two accumulators: the configuration built so far and
      the running total of the quantities it recorded. */
  datatype Tally = Tally(config: Config, total: int)

  datatype Failure =
      /** a zero target makes the fair-share computation divide by zero */
    | DivisionByZero
      /** mt_rand was asked for a step count in an empty range; the item is
          the one at this position of the child list */
    | EmptyDrawRange(index: nat)

  datatype Outcome = Allocated(tally: Tally) | Failed(failure: Failure)

  /** The inclusive range of step counts the first pass draws from. */
  datatype StepRange = StepRange(lo: int, hi: int)

  // ---------------------------------------------------------------------
  // Target and fair share

  /** Twice the target quantity: the midpoint of the container sizes, or the
      minimum size alone when there is no maximum. */
  function DoubleTarget(c: Container): (t2: nat)
    ensures c.maxSize == 0 ==> t2 == 2 * c.minSize
    ensures c.maxSize != 0 ==> t2 == c.minSize + c.maxSize
    ensures c.maxSize != 0 && c.minSize <= c.maxSize ==> 2 * c.minSize <= t2 <= 2 * c.maxSize
    ensures t2 == 0 <==> c.minSize == 0 && c.maxSize == 0
  {
    if c.maxSize != 0 then c.minSize + c.maxSize else 2 * c.minSize
  }

  /** The per-item fair share for n child items: floor(n / target) when the
      items are at least as many as the target, otherwise 1. */
  function FairShare(n: nat, t2: nat): (share: nat)
    requires t2 > 0
    ensures share >= 1
    ensures 2 * n >= t2 ==> t2 * share <= 2 * n < t2 * share + t2
    ensures 2 * n < t2 ==> share == 1
  {
    if 2 * n >= t2 then
      var q := FloorDiv(2 * n, t2);
      assert q >= 1 by {
        if q <= 0 { MulMonotone(q, 0, t2); }
      }
      q
    else
      1
  }

  // ---------------------------------------------------------------------
  // Per-item values

  /** The key of an item in the configuration: its variation id when it has
      one, its product id otherwise. */
  function Identity(c: ChildItem): (id: nat)
    ensures c.variationId != 0 ==> id == c.variationId
    ensures c.variationId == 0 ==> id == c.productId
  {
    if c.variationId != 0 then c.variationId else c.productId
  }

  /** The item's step, 1 when unset. */
  function Step(c: ChildItem): (s: nat)
    ensures s >= 1
    ensures c.stepQty != 0 ==> s == c.stepQty
    ensures c.stepQty == 0 ==> s == 1
  {
    if c.stepQty != 0 then c.stepQty else 1
  }

  /** The smallest quantity pass 1 may give the item: its own minimum, or the
      fair share when it has none. */
  function ItemMin(c: ChildItem, share: nat): (m: nat)
    ensures c.minQty > 0 ==> m == c.minQty
    ensures c.minQty == 0 ==> m == share
    ensures share >= 1 ==> m >= 1
  {
    if c.minQty > 0 then c.minQty else share
  }

  /** The largest quantity pass 1 may give the item: its own maximum, capped
      at the fair share. */
  function ItemMax(c: ChildItem, share: nat): (m: nat)
    ensures m <= share && m <= c.maxQty
    ensures m == share || m == c.maxQty
  {
    if c.maxQty > share then share else c.maxQty
  }

  /** The step counts pass 1 may draw for item c while the running total is
      `total`: from the least count reaching the item's minimum, to the
      greatest count that stays within both the item's maximum and the gap
      to the target. */
  function DrawRange(c: ChildItem, share: nat, t2: int, total: int): (r: StepRange)
    ensures Step(c) * r.lo >= ItemMin(c, share) > Step(c) * r.lo - Step(c)
    ensures Step(c) * r.hi <= ItemMax(c, share)
    ensures 2 * Step(c) * r.hi <= t2 - 2 * total
    ensures Step(c) * r.hi + Step(c) > ItemMax(c, share)
         || 2 * Step(c) * r.hi + 2 * Step(c) > t2 - 2 * total
  {
    var step := Step(c);
    var minSteps := CeilDiv(ItemMin(c, share), step);
    var maxSteps := FloorDiv(ItemMax(c, share), step);
    var adjustedMaxSteps := FloorDiv(t2 - 2 * total, 2 * step);
    StepRange(minSteps, Min(maxSteps, adjustedMaxSteps))
  }

  // ---------------------------------------------------------------------
  // Pass 1: one random, step-aligned quantity per in-stock item

  /** A step count drawn from the range gives a step-aligned quantity within
      the item's bounds that keeps the total within the target. */
  lemma DrawnQuantity(c: ChildItem, share: nat, t2: int, total: int, k: int)
    requires DrawRange(c, share, t2, total).lo <= k <= DrawRange(c, share, t2, total).hi
    ensures (k * Step(c)) % Step(c) == 0
    ensures ItemMin(c, share) <= k * Step(c) <= ItemMax(c, share)
    ensures 2 * (total + k * Step(c)) <= t2
    ensures ItemMin(c, share) >= 1 ==> k * Step(c) >= Step(c)
  {
    var range := DrawRange(c, share, t2, total);
    MultipleOfStep(k, Step(c));
    ScaledStepCount(Step(c), range.lo, range.hi, k);
  }

  /** Scaling by a positive step keeps the order of step counts. */
  lemma ScaledStepCount(s: int, lo: int, hi: int, k: int)
    requires s >= 1 && lo <= k <= hi
    ensures s * lo <= k * s <= s * hi
    ensures 2 * (k * s) <= 2 * s * hi
    ensures s * lo >= 1 ==> k * s >= s
  {
    MulMonotone(lo, k, s);
    MulMonotone(k, hi, s);
    assert s * lo == lo * s && s * hi == hi * s;
    assert 2 * s * hi == 2 * (s * hi);
    if s * lo >= 1 {
      if lo <= 0 {
        MulMonotone(lo, 0, s);
      }
      MulMonotone(1, k, s);
    }
  }

  /** Pass 1 on the in-stock item c at position `index`, with `raw` the
      generator's output: draw a step count, record step count times step
      under the item's identity and add it to the total. */
  function FirstPassItem(c: ChildItem, index: nat, share: nat, t2: int, raw: nat, st: Tally): (r: Outcome)
    ensures r.Failed? <==> DrawRange(c, share, t2, st.total).lo > DrawRange(c, share, t2, st.total).hi
    ensures r.Failed? ==> r.failure == EmptyDrawRange(index)
    ensures r.Allocated? ==>
      var q := r.tally.total - st.total;
      && r.tally.config == st.config[Identity(c) := Entry(c.productId, c.variationId, q)]
      && q % Step(c) == 0
      && ItemMin(c, share) <= q <= ItemMax(c, share)
      && (ItemMin(c, share) >= 1 ==> q >= Step(c))
      && 2 * r.tally.total <= t2
  {
    var range := DrawRange(c, share, t2, st.total);
    if range.lo > range.hi then
      Failed(EmptyDrawRange(index))
    else
      var k := Draw(range.lo, range.hi, raw);
      DrawnQuantity(c, share, t2, st.total, k);
      var qty := k * Step(c);
      Allocated(Tally(st.config[Identity(c) := Entry(c.productId, c.variationId, qty)], st.total + qty))
  }

  /** Pass 1 over items[i..], starting from the tally st: out-of-stock items
      are skipped, and the pass stops once the total reaches the target. */
  function FirstPassFrom(items: seq<ChildItem>, i: nat, share: nat, t2: int, rng: nat -> nat, st: Tally): (r: Outcome)
    requires i <= |items|
    ensures r.Failed? ==>
      && r.failure.EmptyDrawRange?
      && i <= r.failure.index < |items|
      && items[r.failure.index].inStock
    decreases |items| - i
  {
    if i == |items| then
      Allocated(st)
    else if !items[i].inStock then
      FirstPassFrom(items, i + 1, share, t2, rng, st)
    else
      match FirstPassItem(items[i], i, share, t2, rng(i), st)
      case Failed(f) => Failed(f)
      case Allocated(next) =>
        if 2 * next.total >= t2 then Allocated(next)
        else FirstPassFrom(items, i + 1, share, t2, rng, next)
  }

  // ---------------------------------------------------------------------
  // Pass 2: top up items that already have an entry

  /** What pass 2 may add for item c: the gap to the target rounded down to a
      multiple of the item's step, that is, the largest multiple of the step
      that does not exceed the gap. */
  function TopUpAmount(c: ChildItem, t2: int, total: int): (a: int)
    ensures a % Step(c) == 0
    ensures 2 * a <= t2 - 2 * total < 2 * a + 2 * Step(c)
  {
    var s := Step(c);
    var f := FloorDiv(t2 - 2 * total, 2 * s);
    MultipleOfStep(f, s);
    assert 2 * (s * f) == (2 * s) * f;
    s * f
  }

  /** Pass 2 on item c: add the step-rounded gap to the item's entry, if it
      has one and the amount is positive. */
  function TopUpItem(c: ChildItem, t2: int, st: Tally): (r: Tally)
    ensures r.config.Keys == st.config.Keys
    ensures Identity(c) !in st.config ==> r == st
    ensures forall k :: k in st.config && k != Identity(c) ==> r.config[k] == st.config[k]
    ensures Identity(c) in st.config ==>
      r.config[Identity(c)] == st.config[Identity(c)].(quantity := st.config[Identity(c)].quantity + (r.total - st.total))
    ensures r.total >= st.total && (r.total - st.total) % Step(c) == 0
    ensures 2 * st.total <= t2 ==> 2 * r.total <= t2
    ensures Identity(c) in st.config ==> t2 - 2 * r.total < 2 * Step(c)
  {
    var id := Identity(c);
    var additional := TopUpAmount(c, t2, st.total);
    if additional > 0 && id in st.config then
      Tally(st.config[id := st.config[id].(quantity := st.config[id].quantity + additional)], st.total + additional)
    else
      st
  }

  /** Pass 2 over items[i..], stopping once the total reaches the target.
      It adds no key and never lowers the total. */
  function TopUpFrom(items: seq<ChildItem>, i: nat, t2: int, st: Tally): (r: Tally)
    requires i <= |items|
    ensures r.config.Keys == st.config.Keys
    ensures r.total >= st.total
    decreases |items| - i
  {
    if i == |items| then
      st
    else
      var next := TopUpItem(items[i], t2, st);
      if 2 * next.total >= t2 then next
      else TopUpFrom(items, i + 1, t2, next)
  }

  // ---------------------------------------------------------------------
  // The whole allocation

  /** The configuration the allocator builds for the container and its child
      items, with rng(i) the generator's raw output for the item at
      position i. */
  function Allocate(bundle: Container, items: seq<ChildItem>, rng: nat -> nat): (r: Outcome)
    ensures r == Failed(DivisionByZero) <==> bundle.minSize == 0 && bundle.maxSize == 0
  {
    var t2 := DoubleTarget(bundle);
    if t2 == 0 then
      Failed(DivisionByZero)
    else
      var share := FairShare(|items|, t2);
      match FirstPassFrom(items, 0, share, t2, rng, Tally(map[], 0))
      case Failed(f) => Failed(f)
      case Allocated(st) =>
        Allocated(if 2 * st.total < t2 then TopUpFrom(items, 0, t2, st) else st)
  }

  // ---------------------------------------------------------------------
  // The allocator as the program runs it

  /** Pass 1 as a loop over the child items that updates the configuration
      and the running total in place. */
  method FirstPass(items: seq<ChildItem>, share: nat, t2: int, rng: nat -> nat) returns (r: Outcome)
    ensures r == FirstPassFrom(items, 0, share, t2, rng, Tally(map[], 0))
  {
    var config: Config := map[];
    var total := 0;
    var i := 0;
    while i < |items|
      invariant i <= |items|
      invariant FirstPassFrom(items, 0, share, t2, rng, Tally(map[], 0))
             == FirstPassFrom(items, i, share, t2, rng, Tally(config, total))
    {
      var c := items[i];
      if !c.inStock {
        i := i + 1;
        continue;
      }
      var id := Identity(c);
      var itemMin := if c.minQty > 0 then c.minQty else share;
      var itemMax := if c.maxQty > share then share else c.maxQty;
      var step := if c.stepQty != 0 then c.stepQty else 1;
      var minSteps := CeilDiv(itemMin, step);
      var maxSteps := FloorDiv(itemMax, step);
      var adjustedMaxSteps := FloorDiv(t2 - 2 * total, 2 * step);
      maxSteps := Min(maxSteps, adjustedMaxSteps);
      assert StepRange(minSteps, maxSteps) == DrawRange(c, share, t2, total);
      if minSteps > maxSteps {
        return Failed(EmptyDrawRange(i));
      }
      ghost var prevConfig, prevTotal := config, total;
      var randomSteps := Draw(minSteps, maxSteps, rng(i));
      var qty := randomSteps * step;
      total := total + qty;
      config := config[id := Entry(c.productId, c.variationId, qty)];
      assert FirstPassItem(c, i, share, t2, rng(i), Tally(prevConfig, prevTotal)) == Allocated(Tally(config, total));
      if 2 * total >= t2 {
        break;
      }
      i := i + 1;
    }
    r := Allocated(Tally(config, total));
  }

  /** Pass 2 as a loop over all child items that adds to existing entries
      in place. */
  method TopUp(items: seq<ChildItem>, t2: int, st: Tally) returns (r: Tally)
    ensures r == TopUpFrom(items, 0, t2, st)
  {
    var config := st.config;
    var total := st.total;
    var i := 0;
    while i < |items|
      invariant i <= |items|
      invariant TopUpFrom(items, 0, t2, st) == TopUpFrom(items, i, t2, Tally(config, total))
    {
      var c := items[i];
      var id := Identity(c);
      var step := if c.stepQty != 0 then c.stepQty else 1;
      var additional := step * FloorDiv(t2 - 2 * total, 2 * step);
      if additional > 0 && id in config {
        config := config[id := config[id].(quantity := config[id].quantity + additional)];
        total := total + additional;
      }
      if 2 * total >= t2 {
        break;
      }
      i := i + 1;
    }
    r := Tally(config, total);
  }

  /** The allocation block of the add-to-cart handler: target, fair share,
      pass 1, and pass 2 when pass 1 fell short of the target. */
  method AllocateRandomConfig(bundle: Container, items: seq<ChildItem>, rng: nat -> nat) returns (r: Outcome)
    ensures r == Allocate(bundle, items, rng)
  {
    var t2 := if bundle.maxSize != 0 then bundle.minSize + bundle.maxSize else 2 * bundle.minSize;
    if t2 == 0 {
      return Failed(DivisionByZero);
    }
    var share := if 2 * |items| >= t2 then FloorDiv(2 * |items|, t2) else 1;
    var first := FirstPass(items, share, t2, rng);
    if first.Failed? {
      return first;
    }
    var st := first.tally;
    if 2 * st.total < t2 {
      st := TopUp(items, t2, st);
    }
    r := Allocated(st);
  }
}
