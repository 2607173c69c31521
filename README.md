# Shopping cart model

A Dafny model of the in-memory shopping cart of `P2FixAnAppDotNetCode.Models`
(`cart.dfy`, module `Models`). A `Cart` owns an ordered list of `CartLine`
records, each pairing a `Product` (id, price, stock) with a quantity and an
`OrderLineId`. The cart can add an item, remove a product's line, clear
itself, report its total and average value, and look a line up by product id
or by position.

The model is imperative where the source is: `Cart` is a class whose field
`cartList: seq<CartLine>` is the source's private `List<CartLine>`, and
`AddItem`, `RemoveLine` and `Clear` reassign it (`modifies this`). Each of
those methods states its new line sequence as a function of the old one
(`AddedTo`, `RemoveId`, the empty sequence). `GetTotalValue` and
`GetAverageValue` are the source's accumulating loops, proved against the
sums `TotalOf` and `QuantityOf`. The object invariant `Valid()` says that no
two lines share a product id. Every mutating method keeps it, and
`RunPreservesUnique` shows that it survives any sequence of calls.

Modelling decisions:
- `Product` and `CartLine` are values (datatypes). The source's in-place
  `line.Quantity += quantity` is modelled by replacing that element of the
  sequence. An existing line keeps the `Product` value it was stored with,
  as in the source.
- Prices are whole numbers of cents (`int`), so totals are exact. The average
  is a `real`, the exact quotient of the total by the item count.
- The stock gate of `AddItem` follows the code (`Cart.cs:42`). It compares
  the stock of the product passed in with the stored line's current quantity,
  and only when the product is already in the cart. A first insertion is
  never gated. One add can take a line past the stock (`AddCanExceedStock`).
  Cart.cs has one `AddItem`, with the gate at line 42, and the model follows it.
- The faults of the source become preconditions. `FindProductInCartLines`
  requires a line for the id, since `First` throws otherwise.
  `GetCartLineByIndex` requires an index in range, since the array index
  throws. `GetAverageValue` requires a non-zero item count, since the source
  divides by it. The requirement is on the quantity sum and not on the line
  count, because the source accepts quantities of any sign.

## Model

| member | source | states |
|---|---|---|
| `Models.FirstIndexOf` | P2FixAnAppDotNetCode/Models/Cart.cs:32 | `FirstOrDefault` by product id: none exactly when no line has the id; otherwise an index of a line with the id and no earlier line with it |
| `Models.AddNewAppends` | P2FixAnAppDotNetCode/Models/Cart.cs:32-41 | adding a product whose id is absent appends exactly one line, with the given product and quantity and `OrderLineId` equal to the previous line count; all earlier lines are unchanged |
| `Models.AddExistingUpdatesInPlace` | P2FixAnAppDotNetCode/Models/Cart.cs:42-45 | adding a product already present, on any line list, keeps the line count; only the first line with its id (the one `FirstOrDefault` finds) may change, and only its quantity, which grows by `quantity` exactly when the argument's stock is positive and the line's quantity is below it; otherwise the cart is unchanged |
| `Models.AddPreservesUnique` | P2FixAnAppDotNetCode/Models/Cart.cs:32-45 | `AddItem` keeps product ids unique across lines |
| `Models.AddTotal` | P2FixAnAppDotNetCode/Models/Cart.cs:32-45 | after `AddItem` the total grows by quantity times the new product's price (new line), by quantity times the stored line's price (gate passes), or not at all (gate fails) |
| `Models.AddCanExceedStock` | P2FixAnAppDotNetCode/Models/Cart.cs:42-44 | the gate checks only the stored quantity: a line of 1 with stock 5, given 10 more, ends at 11 |
| `Models.RemoveIdLeavesNone` | P2FixAnAppDotNetCode/Models/Cart.cs:52-53 | after `RemoveAll` no line has the product's id, so a later `FindProductInCartLines` of that id faults |
| `Models.RemoveIdMembers` | P2FixAnAppDotNetCode/Models/Cart.cs:52-53 | a line is kept by removal exactly when it was present and its id differs |
| `Models.RemoveIdAbsent` | P2FixAnAppDotNetCode/Models/Cart.cs:52-53 | removing an id no line has leaves the cart unchanged |
| `Models.RemoveIdUniqueLine` | P2FixAnAppDotNetCode/Models/Cart.cs:52-53 | with unique ids, removal deletes exactly the matching line and keeps all other lines in their original order |
| `Models.RemovePreservesUnique` | P2FixAnAppDotNetCode/Models/Cart.cs:52-53 | removal keeps product ids unique |
| `Models.RemoveTotal` | P2FixAnAppDotNetCode/Models/Cart.cs:52-66 | with unique ids, removal lowers the total by exactly the removed line's quantity times price |
| `Models.TotalAppend` | P2FixAnAppDotNetCode/Models/Cart.cs:58-66 | the total over two consecutive runs of lines is the sum of their totals |
| `Models.TotalUpdate` | P2FixAnAppDotNetCode/Models/Cart.cs:58-66 | replacing one line changes the total by the new line's value minus the old one's |
| `Models.ExampleCart` | P2FixAnAppDotNetCode/Models/Cart.cs:30-81 | a new cart given `AddItem` of 2 at 10.00 and of 1 at 5.00 reports a total of 25.00 and an average of 25.00 / 3 |
| `Models.RunPreservesUnique` | P2FixAnAppDotNetCode/Models/Cart.cs:30-107 | any sequence of `AddItem`, `RemoveLine` and `Clear` calls on a cart with unique ids (the empty cart included) leaves ids unique |
| `Models.OrderLineIdCanRepeat` | P2FixAnAppDotNetCode/Models/Cart.cs:35-40 | `OrderLineId` is the count at insertion, so add p1, add p2, remove p1, add p3 leaves two lines both numbered 1 |
| `Models.Cart.constructor` | P2FixAnAppDotNetCode/Models/Cart.cs:11 | a new cart has no lines and satisfies the invariant |
| `Models.Cart.Lines` | P2FixAnAppDotNetCode/Models/Cart.cs:16-25 | the read-only view is the stored sequence and, on a valid cart, holds one line per product id |
| `Models.Cart.AddItem` | P2FixAnAppDotNetCode/Models/Cart.cs:30-46 | the new line sequence is `AddedTo` of the old one (append, gated increment, or no change) and the id-uniqueness invariant is kept |
| `Models.Cart.RemoveLine` | P2FixAnAppDotNetCode/Models/Cart.cs:52-53 | the new line sequence is the old one without the product's id, in order; no line has that id; the invariant is kept |
| `Models.Cart.GetTotalValue` | P2FixAnAppDotNetCode/Models/Cart.cs:58-66 | the loop returns the sum over all lines of quantity times price, and 0 on an empty cart |
| `Models.Cart.GetAverageValue` | P2FixAnAppDotNetCode/Models/Cart.cs:71-81 | given a non-zero item count, the loop returns the total over the item count, i.e. the value that multiplied by the item count gives the total |
| `Models.Cart.FindProductInCartLines` | P2FixAnAppDotNetCode/Models/Cart.cs:86-90 | given a line with the id, returns a product with that id which is the product of the first such line; it only reads the cart |
| `Models.Cart.GetCartLineByIndex` | P2FixAnAppDotNetCode/Models/Cart.cs:95-98 | given an index in range, returns the line at that position, which on a valid cart is the only line for its product |
| `Models.Cart.Clear` | P2FixAnAppDotNetCode/Models/Cart.cs:103-107 | the cart is left empty, with total 0 and item count 0 |

## Left out

- Floating point: `Price`, the totals and the average are `double` in the source. Here prices are exact cents, the total is an integer and the average an exact real. Rounding, NaN and infinity are not modelled.
- 32-bit integers: `Quantity`, `OrderLineId` and the item count are `int` in the source and can wrap around. Here they are unbounded.
- Aliasing: `Lines` and `GetCartLineByIndex` hand out the stored list and line objects, which a caller could then change. Here lines are values, so changes made through such references are not modelled.
- Null products and null lines, which would make the source throw inside the id comparisons, are not modelled.
- The `ICart` interface and the body of `Product` are not part of this model. `Product` is an immutable value with `Id`, `Price` and `Stock`.
- `FirstOrDefault`, `First`, `RemoveAll`, `ToArray` and `IEnumerable` are modelled by their meaning on a sequence (`FirstIndexOf`, `RemoveId`, indexing), not by their own loops.
- Models.Cart.FindProductInCartLines: the source throws when no line has the id. Here that case is a precondition, not an error result.
- Models.Cart.GetCartLineByIndex: the source throws when the index is out of range. Here that case is a precondition.
- Models.Cart.GetAverageValue: the source divides by a zero item count and returns a non-finite `double`. Here that case is a precondition.
- `OrderLineId` is not guaranteed to be stable or unique after removals. The model assigns the count at insertion, as the source does (`OrderLineIdCanRepeat`).
