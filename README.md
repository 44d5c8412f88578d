# Placing an order: a verified model

This project models the part of the shop's `OrderService` that turns a shopping
cart into an order. It also models how the service allocates the order's monthly
index.

- **Placing an order** (`placeOrder`). A new `Order` takes the shop's locale, an
  index, the cart's customer, its delivery and payment method, and its assembly and
  full-delivery flags.
  - It records a price snapshot of the cart's statistics. The delivery total starts
    at the base delivery price. Each surcharge is recorded and added only when its
    flag is set.
  - `saveAddresses` copies the cart's addresses onto the order.
  - There is one voucher per applied cart rule, and each application adds one use to
    that rule's counter.
  - There is one order line per cart item, in cart order. A gift costs nothing. Every
    line's total is its quantity times its single price.
- **The order index** (`generateIndex`). The index is the `yymm` date prefix followed
  by a counter.
  - The counter comes from `MAX(r.index)` over this month's orders: `?: 0`, the last
    three characters, the `(int)` cast, plus one, and `sprintf('%03d')`.
  - The model proves the first index of a month, the increment, that the suffix stays
    three characters up to 999, and that "1000" follows 999.
  - It also models a whole month of allocations, each computed from the `MAX` of the
    indices stored before it, under byte-wise string order. The placements are
    taken one after another, and all rows of the month share one prefix (see
    "Allocations:" under "## Left out"). Up to 999 orders get
    consecutive, distinct indices. From the 1000th order on, `MAX` stays at
    "yymm999", because "yymm1000" sorts below it, so every later order of the month
    gets "yymm1000".
- **The payment amount** (`getOnlineOperation`): the deposit when it is non-zero,
  otherwise the total price.

Files:
- `options.dfy`: `Option`.
- `php_strings.dfy` (module `PhpStrings`): the PHP primitives used by the index.
  These are `substr($s, -3)`, `(int)` on a string, `sprintf('%03d')` and byte-wise
  string order.
- `order_index.dfy` (module `OrderIndex`): `generateIndex` and a month of
  allocations.
- `order_service.dfy` (module `OrderService`): the entities, the `Order` and
  `CartRules` classes, `placeOrder`, `saveAddresses` and the payment amount.

Prices are integers in minor units.

## Model

| member | source | states |
|---|---|---|
| `OrderIndex.FalsyReadsZero` | OrderService.php:142-144 | the strings `?:` treats as false (`Falsy`: "" and "0") read as the integer 0 |
| `OrderIndex.QueryAsString` | OrderService.php:137-142 | no row, "" or "0" reads as "0"; any other maximum is kept as it is |
| `OrderIndex.NextNumber` | OrderService.php:144 | the next counter is at least 1 |
| `OrderIndex.NextIndex` | OrderService.php:135-147 | the index starts with the prefix and has at least 3 more characters; its suffix is all digits and denotes the next counter |
| `OrderIndex.NextFromZero` | OrderService.php:142-146 | a query result that reads as 0 gives prefix + `sprintf('%03d', 1)` |
| `OrderIndex.FirstOrderOfMonth` | OrderService.php:137-146 | null, "" and "0" all give prefix + "001" |
| `OrderIndex.NextAfterStoredIndex` | OrderService.php:144-146 | a maximum ending in three digits continues from the number they denote, plus one, zero-padded |
| `OrderIndex.NextIndexIncrements` | OrderService.php:144-146 | after any index whose counter is n < 1000, the next index is prefix + pad3(n + 1) |
| `OrderIndex.SuffixWidth` | OrderService.php:144-146 | the new suffix is exactly 3 characters iff n < 999; n = 999 gives "1000" |
| `OrderIndex.IndexOrder` | OrderService.php:139-146 | under one prefix, indices with counters below 1000 compare as strings as their counters do |
| `OrderIndex.NextIndexIsNewMaximum` | OrderService.php:139-146 | below 999, the new index is strictly greater as a string than the maximum it came from |
| `OrderIndex.ThousandSortsLow` | OrderService.php:139 | "yymm1000" sorts strictly below "yymm999" |
| `OrderIndex.NextAfter999` | OrderService.php:144-146 | "yymm999" is followed by "yymm1000" (no wrap-around) |
| `OrderIndex.ThousandRestartsCounter` | OrderService.php:144-146 | reading "yymm1000" back takes "000", so the counter restarts at "001" |
| `OrderIndex.MaxIndex` | OrderService.php:139 | `MAX` is None exactly for no rows; otherwise it is one of the rows and no row sorts above it |
| `OrderIndex.MaxIndexAppendLower` | OrderService.php:139 | a new row that does not sort above the maximum leaves `MAX` unchanged |
| `OrderIndex.Allocations` | OrderService.php:135-147 | k allocations give k indices |
| `OrderIndex.GenerateIndex` | OrderService.php:135-147 | as an allocator, every index it gives starts with the month prefix and has at least 3 more characters |
| `OrderIndex.GenerateIndexCountsUp` | OrderService.php:135-147 | `generateIndex` starts a month at 001 and follows each counter n < 999 with n + 1 |
| `OrderIndex.GenerateIndexAfter999` | OrderService.php:144-146 | as an allocator, `generateIndex` follows "yymm999" with "yymm1000" |
| `OrderIndex.AllocationsConsecutive` | OrderService.php:135-147 | for an allocator that counts up, the i-th of up to 999 orders gets counter i + 1, and the latest is the `MAX` |
| `OrderIndex.MonthIndicesConsecutive` | OrderService.php:135-147 | the first k < 1000 orders of a month get prefix + 001, 002, ... in order |
| `OrderIndex.IndexInjective` | OrderService.php:146 | under one prefix, different counters give different index strings |
| `OrderIndex.AllocationsDistinct` | OrderService.php:135-147 | an allocator that counts up never repeats an index within the first 999 orders |
| `OrderIndex.MonthIndicesDistinct` | OrderService.php:135-147 | no two of the first 999 orders of a month share an index |
| `OrderIndex.AllocationsAt1000` | OrderService.php:135-147 | the 1000th order gets "yymm1000", and `MAX` stays "yymm999" |
| `OrderIndex.AllocationsRepeatAfter999` | OrderService.php:135-147 | from the 1000th order on, `MAX` stays "yymm999" and every order gets "yymm1000" |
| `OrderIndex.MonthIndicesRepeatAfter999` | OrderService.php:135-147 | for `generateIndex`, every order from the 1000th on gets the same index "yymm1000" |
| `PhpStrings.DigitChar` | OrderService.php:146 | the digit character for d < 10 is a digit whose value is d |
| `PhpStrings.ToDecimal` | OrderService.php:146 | `%d` prints at least one character, all of them digits |
| `PhpStrings.Zeros` | OrderService.php:146 | the padding is exactly k "0" characters |
| `PhpStrings.Sprintf03` | OrderService.php:146 | `%03d` prints only digits |
| `PhpStrings.SubstrFromEnd` | OrderService.php:144 | `substr($s, -k)` has length min(k, \|s\|) and is the end of s |
| `PhpStrings.LeadingDigits` | OrderService.php:144 | the longest all-digit prefix: a prefix, all digits, followed by a non-digit or the end |
| `PhpStrings.IntCast` | OrderService.php:144 | `(int)` of a string that is empty or does not start with a digit is 0 |
| `PhpStrings.LexLess` | OrderService.php:139 | the order `MAX` compares by: a proper prefix sorts below the longer string |
| `PhpStrings.ValueOfToDecimal` | OrderService.php:146 | reading back `%d` gives n |
| `PhpStrings.ValueOfZeros` | OrderService.php:146 | a run of zeros denotes 0 |
| `PhpStrings.ValueOfLeadingZeros` | OrderService.php:146 | zero padding does not change the number a digit string denotes |
| `PhpStrings.Sprintf03RoundTrip` | OrderService.php:144-146 | reading back `sprintf('%03d', n)` gives n |
| `PhpStrings.LeadingDigitsOfDigits` | OrderService.php:144 | an all-digit string is its own leading-digit prefix |
| `PhpStrings.IntCastOfDigits` | OrderService.php:144 | `(int)` of an all-digit string is the number it denotes |
| `PhpStrings.ToDecimalLength` | OrderService.php:146 | `%d` prints 1, 2 and 3 characters for numbers below 10, 100 and 1000, and at least 4 from 1000 |
| `PhpStrings.Sprintf03Width` | OrderService.php:146 | `%03d` prints at least 3 characters, exactly 3 iff n < 1000 |
| `PhpStrings.Sprintf03Digits` | OrderService.php:146 | below 1000, `%03d` prints the hundreds, tens and units digits |
| `PhpStrings.Sprintf03Of999` | OrderService.php:146 | `sprintf('%03d', 999)` is "999" |
| `PhpStrings.Sprintf03Of1000` | OrderService.php:146 | `sprintf('%03d', 1000)` is "1000" |
| `PhpStrings.LexLessIrreflexive` | OrderService.php:139 | no string sorts below itself |
| `PhpStrings.LexLessTransitive` | OrderService.php:139 | the string order is transitive |
| `PhpStrings.LexLessCommonPrefix` | OrderService.php:139 | a common prefix does not change how two strings compare |
| `PhpStrings.DigitCharOrder` | OrderService.php:139 | digit characters compare as their values do |
| `PhpStrings.LexLessThree` | OrderService.php:139 | two 3-character strings compare on the first position where they differ |
| `PhpStrings.ThreeDigitOrder` | OrderService.php:139 | below 1000, numbers compare as their hundreds, tens and units digits do |
| `PhpStrings.Sprintf03Order` | OrderService.php:139-146 | below 1000, `%03d` strings compare as their numbers do |
| `OrderService.CartRules.IncreaseUseCounter` | OrderService.php:84 | the rule's counter goes up by one; no other counter changes |
| `OrderService.MakeItem` | OrderService.php:93-105 | the line copies the cart item's product, variant, quantity, options and gift flag; a gift has single and total price 0, anything else the cart item's price; total = quantity × single |
| `OrderService.ItemsFor` | OrderService.php:87-108 | one line per cart item |
| `OrderService.ItemsForLines` | OrderService.php:87-108 | the i-th line is made from the i-th cart item |
| `OrderService.VouchersFor` | OrderService.php:73-85 | one voucher per applied rule |
| `OrderService.VouchersForRules` | OrderService.php:79-80 | the i-th voucher carries the i-th applied rule and its discount |
| `OrderService.RuleUses` | OrderService.php:73-84 | one use per application |
| `OrderService.CountersAfter` | OrderService.php:73-85 | no counter is added or removed |
| `OrderService.CountersAfterUses` | OrderService.php:73-85 | each counter goes up by the number of applications of its rule, and by nothing else |
| `OrderService.RuleUsesOutside` | OrderService.php:73-85 | a rule that is not applied gets no uses |
| `OrderService.RuleSetContains` | OrderService.php:73 | every applied rule is in the set of applied rules |
| `OrderService.RuleSetOnlyApplied` | OrderService.php:73 | a rule that is not applied is not in that set |
| `OrderService.DistinctRulesUsedOnce` | OrderService.php:73-85 | when no rule is applied twice, every applied rule is used exactly once |
| `OrderService.CountersAfterDistinct` | OrderService.php:73-85 | when no rule is applied twice, each applied rule's counter goes up by exactly one and every other counter stays as it was |
| `OrderService.AddressesToCopy` | OrderService.php:126-131 | the billing address is copied iff there is a customer; the delivery address iff there is a customer, the method is not personal pickup, and there is a delivery address |
| `OrderService.HeaderFromCart` | OrderService.php:38-53 | the order placed from a cart has the shop's locale, the allocated index, the cart's customer, the cart's delivery and payment method, and the cart's assembly and full-delivery flags |
| `OrderService.PriceSnapshot` | OrderService.php:55-71 | the cart's prices are taken over; the delivery total is the delivery price plus each surcharge, and a surcharge is recorded (else 0) only when its flag is set |
| `OrderService.Order.FromCart` | OrderService.php:37-71 | the new order's header is the cart's; its prices are the snapshot; it has no address, line or voucher yet |
| `OrderService.Order.AddVouchers` | OrderService.php:73-85 | vouchers = old vouchers + one per applied rule; counters = the old ones after one use per application; header and prices unchanged |
| `OrderService.Order.AddItems` | OrderService.php:87-108 | lines = old lines + one per cart item, in order; header and prices unchanged |
| `OrderService.SaveAddresses` | OrderService.php:124-133 | the addresses are set as `AddressesToCopy` decides and left as they were otherwise; header and prices unchanged |
| `OrderService.OnlineAmount` | OrderService.php:196 | the deposit when it is non-zero, else the total price; 0 only when both are 0 |
| `OrderService.PlaceOrderUnder` | OrderService.php:37-108 | the order under a given index: header, snapshot, copied addresses, one line per cart item, one voucher per rule, counters advanced |
| `OrderService.PlaceOrder` | OrderService.php:30-115 | the same order, under the index `generateIndex` computes from the prefix and the month's `MAX` |

## Left out

- Persistence (`persist`, `flush`, entity identifiers): it is the ORM's work. The order is a fresh object, and vouchers and lines are values held in its sequences, with no back-reference to the order.
- The `MAX(r.index)` query: the database's work. Its result for this month is the parameter `monthMax`.
- The clock: out of scope. `date('ym')` is the parameter `yymm`. The order's `createdAt` and the `time()` order number of the payment are not modelled.
- `getByIndex`: it only builds an ORM query.
- `updateOrder` and event dispatch: framework calls with no rule to state.
- The GPWebPay `Operation`, its currency, URL and link generation: a foreign SDK. Only the amount is modelled.
- `generateSecureHash`: its body is not part of this model.
- `Cart::init` and `calculateStatistics`: their bodies are not part of this model. The cart record and the statistics are inputs.
- `hydrateFromCart`: its body is not part of this model. It is taken to copy the assembly and full-delivery flags, which placeOrder reads back.
- `hydrateAddressFromCart` and `hydrateDeliveryAddressFromCart`: their bodies are not part of this model. They are taken to copy the cart's address and delivery address.
- `getPrice($currency)`: its body is not part of this model. Each cart item carries the price it has in the shop's currency as its `price` field.
- `Cart::PERSONAL_PICKAP`: its value is not part of this model. It is the parameter `personalPickupCode`.
- `increaseUseCounter`: its body is not part of this model. It is taken to add one to the rule's counter, kept in a map from rule to count.
- Floating-point prices: prices are integers in minor units.
- IntCast: only leading decimal digits are read. Leading whitespace, a sign, and the float and exponent forms of PHP's `(int)` are not modelled. A three-character index suffix is never signed or spaced.
- LexLess: `MAX` over the index column is taken under byte-wise (binary) collation. Other database collations are not modelled.
- PriceSnapshot: a surcharge whose flag is off reads as 0. This is taken to be the entity's default; the entity's own field defaults are not part of this model.
- Allocations: the month-level results assume two things the code does not guarantee. First, placements happen one after another. The index is computed before the order is written by `flush`, so two overlapping placements read the same `MAX` and receive the same index. Second, all of a month's rows carry the prefix of that month. The rows are selected by `createdAt` from one clock read, the prefix comes from a separate `date('ym')`, and `createdAt` is set only after the index. At the turn of a month this goes wrong in two ways. The month of the `MAX` query can be read in the old month and `date('ym')` in the new one, so the index is the new month's prefix followed by the old month's counter plus one. And an order whose index got the old prefix can receive a new-month `createdAt`; the new month's `MAX` then comes from that order, so its counter continues from there instead of starting at 001. Neither concurrency nor the clock is modelled.
- AddressesToCopy: every cart that reaches placeOrder is taken to have a delivery method (`CartRecord.deliveryMethod` is not optional). The code reads its `code` without a null check; without a delivery method, PHP would read null, so a present delivery address would be copied. That case is not modelled.
- PlaceOrder: the locale is a parameter rather than service state. The cart's rules must be known to the rule catalogue.
