# Mix and Match "Pick for me": the random-configuration allocator

The WooCommerce Mix and Match "Random Pick" plugin adds a "Pick for me"
button to a mix-and-match container product. When the button is pressed,
the handler `wc_mnm_add_random_sort_to_cart` fills the container with a
random configuration. The configuration is a map from each child item's
identity (its variation id, else its product id) to a product id, a
variation id and a quantity. The handler then adds the container to the
cart. This project models the allocation block of that handler and
proves properties of it. The block has four stages:

- **Target.** The target is the midpoint of the container's minimum and
  maximum size, or the minimum alone when there is no maximum.
- **Fair share.** The fair share is floor(n / target) for n child items
  when n reaches the target, and 1 otherwise.
- **Pass 1.** This pass walks the child items in order and skips
  out-of-stock ones. For each in-stock item it draws a random step count
  with `mt_rand`. The item's minimum (or the fair share, when it has
  none) bounds the count from below. The item's maximum capped at the
  fair share, and the gap left to the target, bound it from above. The
  pass records step count × step and stops once the total reaches the
  target.
- **Pass 2.** This pass runs only when pass 1 ended short of the target.
  It walks all child items again. To every item that already has an
  entry it adds the remaining gap, rounded down to a multiple of that
  item's step. It stops once the target is reached.

Files:

- `quantities.dfy` (module `Quantities`): floor and ceiling of an exact
  quotient, and `Draw`, the model of `mt_rand(lo, hi)`.
- `random_pick.dfy` (module `RandomPick`): the data model. It holds the
  functional definition of each stage (`FirstPassFrom`, `TopUpFrom`,
  `Allocate`). It also holds the loops as the program runs them
  (`FirstPass`, `TopUp`, `AllocateRandomConfig`). Each loop is proved
  equal to its definition.
- `random_pick_proofs.dfy` (module `RandomPickProofs`): the properties.

Modelling choices:

- **Doubled units.** The target can be a half-integer (container sizes 2
  and 5 give 3.5). Every quantity is therefore compared in doubled units:
  `t2` is twice the target, and `2 * total` is compared with it. This is
  exact. Dafny's `/` agrees with PHP's `floor` of the quotient whenever
  the divisor is positive, and every divisor here is.
- **Random draws.** The generator is an input. `rng(i)` is the raw output
  used for the child item at position i. `Draw` maps it onto the inclusive
  range `[lo, hi]`. `Quantities.DrawCoversRange` shows that every value of
  the range is the draw of some raw output, so each result `mt_rand` can
  give is covered.
- **Errors.** The two fatal errors of PHP 8 are modelled as `Failed`
  outcomes:
  - `DivisionByZero`: the fair share is computed with a zero target. The
    target is 0 exactly when both container sizes are 0. Then
    `n >= target` holds even for an empty child list, so line 106 divides
    by zero.
  - `EmptyDrawRange(i)`: `mt_rand` is called with a minimum above its
    maximum. This happens, for instance, when an item's own minimum
    exceeds the fair share, or when the gap left is smaller than the
    item's step.
- **Unset values.** A variation id of 0 means "no variation". A step of 0
  means "unset", and the step then defaults to 1. A maximum container size
  of 0 means "no maximum", as PHP's truthiness test reads it.
- **Identity collisions.** Two child items with the same identity
  overwrite each other's entry, while the running total counts both. The
  model keeps this behaviour. The properties that need one entry per item
  assume distinct identities (`DistinctIdentities`). The bound on the
  total, and the fact that every key belongs to an in-stock item, hold
  without that assumption.

Two behaviours of the code are worth knowing, and the model keeps both:

- **Single item with minimum above the fair share.** One in-stock item
  with minimum and maximum 2 in a container of size 2 does not get
  quantity 2. Its maximum is capped at the fair share 1, so the draw range
  is [2, 1] and `mt_rand(2, 1)` fails.
  `RandomPickProofs.ScenarioMinimumAboveFairShare` proves this.
- **Bounds after pass 2.** Only pass 1 keeps quantities within the item's
  effective maximum. Pass 2 adds to entries without looking at any
  maximum. `RandomPickProofs.ScenarioTwoItemsTopUp` shows an item with
  maximum 1 ending at quantity 2. After both passes only the lower bound
  and step alignment hold, and that is what the model proves.

## Model

| member | source | states |
|---|---|---|
| `Quantities.FloorDiv` | wc-mnm-random-pick.php:129 | the result q is floor(a / d): d·q ≤ a < d·q + d |
| `Quantities.CeilDiv` | wc-mnm-random-pick.php:128 | the result q is ceil(a / d): d·q − d < a ≤ d·q |
| `Quantities.Draw` | wc-mnm-random-pick.php:139 | the drawn step count lies in the inclusive range [lo, hi] |
| `Quantities.DrawCoversRange` | wc-mnm-random-pick.php:139 | every value of [lo, hi] is the draw of some raw generator output |
| `RandomPick.DoubleTarget` | wc-mnm-random-pick.php:102 | twice the target: twice the minimum size when there is no maximum, otherwise the sum of the minimum and maximum size (twice their midpoint), so it lies between twice the minimum and twice the maximum when min ≤ max; it is 0 exactly when both sizes are 0 |
| `RandomPick.FairShare` | wc-mnm-random-pick.php:104-106 | the fair share is at least 1; it is floor(n / target) when n ≥ target and 1 otherwise |
| `RandomPick.Identity` | wc-mnm-random-pick.php:114 | an item's configuration key is its variation id when it has one, its product id otherwise (the same key pass 2 computes at line 163) |
| `RandomPick.Step` | wc-mnm-random-pick.php:117 | the step equals the item's step when one is set and is 1 when it is unset |
| `RandomPick.ItemMin` | wc-mnm-random-pick.php:115 | the effective minimum is the item's own minimum when positive and the fair share otherwise, so it is at least 1 whenever the fair share is |
| `RandomPick.ItemMax` | wc-mnm-random-pick.php:116 | the effective maximum is the smaller of the item's maximum and the fair share |
| `RandomPick.DrawRange` | wc-mnm-random-pick.php:127-136 | lo is the least step count reaching the effective minimum; hi is the greatest step count within both the effective maximum and the gap to the target |
| `RandomPick.DrawnQuantity` | wc-mnm-random-pick.php:139-145 | any step count in the range gives a step-aligned quantity within the item's bounds that keeps the total within the target; it is at least one step when the minimum is positive |
| `RandomPick.FirstPassItem` | wc-mnm-random-pick.php:114-152 | it fails exactly when the draw range is empty, reporting the item's position; otherwise the new configuration is the old one with the item's entry set, the total grows by that entry's quantity, the quantity is step-aligned and within the item's bounds, and the total stays within the target |
| `RandomPick.FirstPassFrom` | wc-mnm-random-pick.php:108-158 | pass 1 can fail only with an empty draw range, and only at an in-stock item it reached |
| `RandomPick.TopUpAmount` | wc-mnm-random-pick.php:166-170 | the top-up is the largest multiple of the item's step not above the gap, so the `min` at line 170 always picks the rounded amount |
| `RandomPick.TopUpItem` | wc-mnm-random-pick.php:163-175 | no key is added or removed; only the item's own entry changes, and only in quantity; the total grows by a non-negative multiple of the item's step and stays within the target; afterwards the gap is below the item's step when the item has an entry |
| `RandomPick.TopUpFrom` | wc-mnm-random-pick.php:161-181 | pass 2 adds no key and never lowers the total; its further promises are stated by `RandomPickProofs.TopUpKeepsEntries`, `TopUpKeepsSum`, `TopUpKeepsAlignment` and `TopUpLeavesNoRoom` |
| `RandomPick.Allocate` | wc-mnm-random-pick.php:94-181 | the allocation fails with a division by zero exactly when both container sizes are 0 |
| `RandomPick.FirstPass` | wc-mnm-random-pick.php:108-158 | the pass-1 loop, updating the configuration and the total in place, computes exactly `FirstPassFrom` |
| `RandomPick.TopUp` | wc-mnm-random-pick.php:161-181 | the pass-2 loop, adding to existing entries in place, computes exactly `TopUpFrom` |
| `RandomPick.AllocateRandomConfig` | wc-mnm-random-pick.php:94-181 | the whole allocation block computes exactly `Allocate` |
| `RandomPickProofs.FirstPassKeeps` | wc-mnm-random-pick.php:108-158 | pass 1 keeps its invariant and reports how many items p it walked; p falls short of the list only when the target was reached |
| `RandomPickProofs.FirstPassProperties` | wc-mnm-random-pick.php:108-158 | after pass 1 the keys are exactly the identities of the in-stock items among the first p; the total is between 0 and the target; with distinct identities the total is the sum of the quantities and every entry is its item's own, step-aligned and within [effective min, effective max] |
| `RandomPickProofs.FirstPassDecidedByPrefix` | wc-mnm-random-pick.php:155-157 | once pass 1 fails or reaches the target within the first n items, the later items play no part |
| `RandomPickProofs.TopUpKeepsEntries` | wc-mnm-random-pick.php:172-175 | pass 2 keeps the key set; every entry keeps its product and variation ids; quantities and the total never decrease; the total never passes the target |
| `RandomPickProofs.TopUpKeepsSum` | wc-mnm-random-pick.php:173-174 | pass 2 adds to the total exactly what it adds to the entries |
| `RandomPickProofs.TopUpKeepsAlignment` | wc-mnm-random-pick.php:167-173 | with distinct identities a step-aligned entry stays aligned to its item's step through pass 2 |
| `RandomPickProofs.TopUpLeavesNoRoom` | wc-mnm-random-pick.php:162-180 | pass 2 ends at the target, or with a gap below the step of every item it had still to visit that has an entry |
| `RandomPickProofs.AllocationWithinTarget` | wc-mnm-random-pick.php:132-174 | the final total is between 0 and the target |
| `RandomPickProofs.AllocationOnlyInStock` | wc-mnm-random-pick.php:110-175 | every key is the identity of an in-stock item; with distinct identities no out-of-stock item has an entry |
| `RandomPickProofs.AllocationTotalIsSum` | wc-mnm-random-pick.php:145-174 | with distinct identities the final total is the sum of the configuration's quantities |
| `RandomPickProofs.AllocationStepAligned` | wc-mnm-random-pick.php:114-173 | with distinct identities every in-stock item's entry carries its own product and variation ids, is a multiple of its step, and is at least its effective minimum and one step |
| `RandomPickProofs.AllocationLeavesNoRoom` | wc-mnm-random-pick.php:155-180 | the final total equals the target, or falls short of it by less than the step of every item that has an entry |
| `RandomPickProofs.NoStockGivesEmptyConfig` | wc-mnm-random-pick.php:94-112 | with a non-zero target and no child item in stock (an empty child list included), the configuration is empty and the total is 0 |
| `RandomPickProofs.ZeroTargetFails` | wc-mnm-random-pick.php:102-106 | container sizes 0 and 0 make the allocation fail with a division by zero, whatever the child list |
| `RandomPickProofs.ScenarioTwoItemsTopUp` | wc-mnm-random-pick.php:102-180 | sizes 2 to 4 with two in-stock items of maximum m ≥ 1 give entries 2 and 1 and total 3, whatever the generator returns |
| `RandomPickProofs.ScenarioMinimumAboveFairShare` | wc-mnm-random-pick.php:115-139 | one in-stock item with minimum and maximum 2 in a container of size 2 fails with an empty draw range |

## Left out

- Hook registration, the features-compatibility declaration and text-domain loading (lines 36-54): plugin wiring with no logic.
- The button markup (lines 59-66): HTML output.
- Request parsing, `absint`, `wc_stock_amount`, `wc_nocache_headers`, `wc_get_product` and the product-type check (lines 76-91): request I/O and calls into WooCommerce. The container sizes and child items are plain inputs instead.
- The validation filter, `WC()->cart->add_to_cart`, notices and the redirect (lines 183-209): side effects on the external cart.
- The `$debug` array (lines 119-125): it is computed and never used.
- The Mersenne Twister behind `mt_rand`: it is replaced by the raw-output oracle `rng`, so the model says nothing about the distribution of draws.
- An unset (empty-string) item maximum: item maxima are natural numbers here. In the source, `'' > $target_child_qty` is false under PHP 8's comparison rules, so the maximum stays `''` (line 116), and `'' / $child_item_step` at line 129 then throws a TypeError. An item with an unlimited maximum therefore makes the source fail, and the model does not represent that case.
- PHP integer overflow and float rounding: quantities are unbounded integers, and the half-integer target is exact. PHP's floats represent these small values exactly.
- PHP 7's `mt_rand` returned `false` for an inverted range rather than throwing. Only the PHP 8 behaviour, a failure, is modelled.
- `RandomPickProofs.AllocationTotalIsSum`, `RandomPickProofs.AllocationStepAligned`, `RandomPickProofs.TopUpKeepsAlignment`: these assume distinct child identities. With a collision the source overwrites an entry while still counting both quantities, so the total no longer equals the sum. A collision also breaks step alignment: pass 2 adds a multiple of the colliding item's own step to the shared entry (lines 163-173), so an entry recorded with step 2 can end at an odd quantity.
