/** A model of the in-memory shopping cart of P2FixAnAppDotNetCode.Models:
    a `Cart` owning an ordered list of `CartLine`s, each pairing a `Product`
    with a quantity. Prices are whole numbers of cents; the average value is
    a real number. */
module Models {

  datatype Option<T> = None | Some(value: T)

  /** A catalog item, immutable from the cart's point of view. */
  datatype Product = Product(id: int, price: int, stock: int)

  /** One entry of the cart. `orderLineId` is the line count at insertion. */
  datatype CartLine = CartLine(orderLineId: int, product: Product, quantity: int)

  // ---------------------------------------------------------------------
  // Specification functions over the line sequence
  // ---------------------------------------------------------------------

  /** Some line of `lines` is for the product with id `id`. */
  predicate HasId(lines: seq<CartLine>, id: int) {
    exists i :: 0 <= i < |lines| && lines[i].product.id == id
  }

  /** No two lines share a product id: the cart's invariant. */
  predicate IdsUnique(lines: seq<CartLine>) {
    forall i, j :: 0 <= i < j < |lines| ==> lines[i].product.id != lines[j].product.id
  }

  /** The position of the first line for product `id`, as `FirstOrDefault` finds it. */
  function FirstIndexOf(lines: seq<CartLine>, id: int): (r: Option<nat>)
    ensures r.None? <==> !HasId(lines, id)
    ensures r.Some? ==> r.value < |lines| && lines[r.value].product.id == id
    ensures r.Some? ==> forall j :: 0 <= j < r.value ==> lines[j].product.id != id
  {
    if lines == [] then None
    else if lines[0].product.id == id then Some(0)
    else
      match FirstIndexOf(lines[1..], id)
      case None =>
        assert forall i :: 1 <= i < |lines| ==> lines[i] == lines[1..][i - 1];
        None
      case Some(k) =>
        assert forall j :: 1 <= j < k + 1 ==> lines[j] == lines[1..][j - 1];
        Some(k + 1)
  }

  /** What one line contributes to the total: quantity times unit price. */
  function LineValue(line: CartLine): int {
    line.quantity * line.product.price
  }

  /** Sum of `LineValue` over `lines`, accumulated front to back. */
  function TotalOf(lines: seq<CartLine>): int {
    if lines == [] then 0
    else TotalOf(lines[..|lines| - 1]) + LineValue(lines[|lines| - 1])
  }

  /** Sum of the quantities over `lines`, accumulated front to back. */
  function QuantityOf(lines: seq<CartLine>): int {
    if lines == [] then 0
    else QuantityOf(lines[..|lines| - 1]) + lines[|lines| - 1].quantity
  }

  /** The lines whose product id is not `id`, in their original order (`RemoveAll`). */
  function RemoveId(lines: seq<CartLine>, id: int): seq<CartLine> {
    if lines == [] then []
    else if lines[0].product.id == id then RemoveId(lines[1..], id)
    else [lines[0]] + RemoveId(lines[1..], id)
  }

  /** The stock gate of `AddItem` for a product already in the cart: the
      argument's stock is positive and the stored line's quantity is below it. */
  predicate StockAllows(product: Product, line: CartLine) {
    product.stock > 0 && line.quantity < product.stock
  }

  /** The line sequence after `AddItem(product, quantity)`. */
  function AddedTo(lines: seq<CartLine>, product: Product, quantity: int): seq<CartLine> {
    match FirstIndexOf(lines, product.id)
    case None => lines + [CartLine(|lines|, product, quantity)]
    case Some(k) =>
      if StockAllows(product, lines[k])
      then lines[k := lines[k].(quantity := lines[k].quantity + quantity)]
      else lines
  }

  // ---------------------------------------------------------------------
  // AddItem
  // ---------------------------------------------------------------------

  /** A product not yet in the cart gets exactly one new line at the end,
      numbered by the previous line count; earlier lines are unchanged. */
  lemma AddNewAppends(lines: seq<CartLine>, product: Product, quantity: int)
    requires !HasId(lines, product.id)
    ensures var r := AddedTo(lines, product, quantity);
      |r| == |lines| + 1 && r[..|lines|] == lines &&
      r[|lines|] == CartLine(|lines|, product, quantity)
  {
  }

  /** A product already in the cart never adds a line. Its first line (on a
      valid cart, its only one) grows by `quantity` when the stock gate
      passes; no other line changes, and when the gate fails nothing changes
      at all. */
  lemma AddExistingUpdatesInPlace(lines: seq<CartLine>, product: Product, quantity: int, k: nat)
    requires k < |lines| && lines[k].product.id == product.id
    requires forall j :: 0 <= j < k ==> lines[j].product.id != product.id
    ensures var r := AddedTo(lines, product, quantity);
      |r| == |lines| &&
      (forall i :: 0 <= i < |lines| && i != k ==> r[i] == lines[i]) &&
      r[k].orderLineId == lines[k].orderLineId && r[k].product == lines[k].product &&
      r[k].quantity == (if StockAllows(product, lines[k]) then lines[k].quantity + quantity
                        else lines[k].quantity) &&
      (!StockAllows(product, lines[k]) ==> r == lines)
  {
  }

  /** `AddItem` keeps product ids unique. */
  lemma AddPreservesUnique(lines: seq<CartLine>, product: Product, quantity: int)
    requires IdsUnique(lines)
    ensures IdsUnique(AddedTo(lines, product, quantity))
  {
  }

  /** Adding a new product raises the total by quantity times its price; raising
      an existing line raises it by quantity times that line's stored price. */
  lemma AddTotal(lines: seq<CartLine>, product: Product, quantity: int)
    ensures var k := FirstIndexOf(lines, product.id);
      TotalOf(AddedTo(lines, product, quantity)) ==
        if k.None? then TotalOf(lines) + quantity * product.price
        else if StockAllows(product, lines[k.value]) then TotalOf(lines) + quantity * lines[k.value].product.price
        else TotalOf(lines)
  {
    match FirstIndexOf(lines, product.id)
    case None =>
      var r := AddedTo(lines, product, quantity);
      assert r[..|r| - 1] == lines;
    case Some(k) =>
      if StockAllows(product, lines[k]) {
        TotalUpdate(lines, k, lines[k].(quantity := lines[k].quantity + quantity));
      }
  }

  /** The stock gate looks only at the stored quantity, so a single add can
      take a line past the product's stock. */
  lemma AddCanExceedStock()
    ensures var p := Product(7, 250, 5);
      AddedTo([CartLine(0, p, 1)], p, 10) == [CartLine(0, p, 11)]
  {
  }

  // ---------------------------------------------------------------------
  // RemoveLine
  // ---------------------------------------------------------------------

  /** After removal no line carries the id, so a later lookup of it faults. */
  lemma {:induction false} RemoveIdLeavesNone(lines: seq<CartLine>, id: int)
    ensures !HasId(RemoveId(lines, id), id)
  {
    if lines != [] {
      RemoveIdLeavesNone(lines[1..], id);
      var rest := RemoveId(lines[1..], id);
      if lines[0].product.id != id {
        var r := [lines[0]] + rest;
        assert forall i :: 1 <= i < |r| ==> r[i] == rest[i - 1];
      }
    }
  }

  /** A line survives removal exactly when it was present and has another id. */
  lemma {:induction false} RemoveIdMembers(lines: seq<CartLine>, id: int, line: CartLine)
    ensures line in RemoveId(lines, id) <==> line in lines && line.product.id != id
  {
    if lines != [] {
      RemoveIdMembers(lines[1..], id, line);
      assert lines == [lines[0]] + lines[1..];
    }
  }

  /** Removing an id that is absent changes nothing. */
  lemma {:induction false} RemoveIdAbsent(lines: seq<CartLine>, id: int)
    requires !HasId(lines, id)
    ensures RemoveId(lines, id) == lines
  {
    if lines != [] {
      assert !HasId(lines[1..], id) by {
        assert forall i :: 0 <= i < |lines| - 1 ==> lines[1..][i] == lines[i + 1];
      }
      RemoveIdAbsent(lines[1..], id);
    }
  }

  /** In a cart with unique ids, removal cuts out exactly the one matching
      line and keeps the others in their original order. */
  lemma {:induction false} RemoveIdUniqueLine(lines: seq<CartLine>, id: int, k: nat)
    requires IdsUnique(lines)
    requires k < |lines| && lines[k].product.id == id
    ensures RemoveId(lines, id) == lines[..k] + lines[k + 1..]
  {
    if k == 0 {
      assert !HasId(lines[1..], id) by {
        assert forall i :: 0 <= i < |lines| - 1 ==> lines[1..][i] == lines[i + 1];
      }
      RemoveIdAbsent(lines[1..], id);
    } else {
      assert IdsUnique(lines[1..]) by {
        assert forall i :: 0 <= i < |lines| - 1 ==> lines[1..][i] == lines[i + 1];
      }
      RemoveIdUniqueLine(lines[1..], id, k - 1);
      assert lines[..k] == [lines[0]] + lines[1..][..k - 1];
      assert lines[k + 1..] == lines[1..][k..];
    }
  }

  /** Removal keeps product ids unique. */
  lemma {:induction false} RemovePreservesUnique(lines: seq<CartLine>, id: int)
    requires IdsUnique(lines)
    ensures IdsUnique(RemoveId(lines, id))
  {
    if lines != [] {
      assert IdsUnique(lines[1..]) by {
        assert forall i :: 0 <= i < |lines| - 1 ==> lines[1..][i] == lines[i + 1];
      }
      RemovePreservesUnique(lines[1..], id);
      if lines[0].product.id != id {
        var rest := RemoveId(lines[1..], id);
        var r := [lines[0]] + rest;
        forall j | 0 < j < |r| ensures r[0].product.id != r[j].product.id {
          assert r[j] == rest[j - 1];
          RemoveIdMembers(lines[1..], id, rest[j - 1]);
          var m :| 0 <= m < |lines[1..]| && lines[1..][m] == rest[j - 1];
          assert lines[m + 1] == r[j];
        }
        forall i, j | 0 < i < j < |r| ensures r[i].product.id != r[j].product.id {
          assert r[i] == rest[i - 1] && r[j] == rest[j - 1];
        }
      }
    }
  }

  /** In a cart with unique ids, removal lowers the total by the removed line's value. */
  lemma RemoveTotal(lines: seq<CartLine>, id: int, k: nat)
    requires IdsUnique(lines)
    requires k < |lines| && lines[k].product.id == id
    ensures TotalOf(RemoveId(lines, id)) == TotalOf(lines) - LineValue(lines[k])
  {
    RemoveIdUniqueLine(lines, id, k);
    assert lines == lines[..k] + [lines[k]] + lines[k + 1..];
    TotalAppend(lines[..k] + [lines[k]], lines[k + 1..]);
    TotalAppend(lines[..k], [lines[k]]);
    TotalAppend(lines[..k], lines[k + 1..]);
  }

  // ---------------------------------------------------------------------
  // Totals
  // ---------------------------------------------------------------------

  /** The total of a concatenation is the sum of the totals. */
  lemma {:induction false} TotalAppend(a: seq<CartLine>, b: seq<CartLine>)
    ensures TotalOf(a + b) == TotalOf(a) + TotalOf(b)
  {
    if b == [] {
      assert a + b == a;
    } else {
      var b' := b[..|b| - 1];
      TotalAppend(a, b');
      assert (a + b)[..|a + b| - 1] == a + b';
    }
  }

  /** Replacing one line changes the total by the difference of the two line values. */
  lemma TotalUpdate(lines: seq<CartLine>, k: nat, line: CartLine)
    requires k < |lines|
    ensures TotalOf(lines[k := line]) == TotalOf(lines) - LineValue(lines[k]) + LineValue(line)
  {
    assert lines == lines[..k] + [lines[k]] + lines[k + 1..];
    assert lines[k := line] == lines[..k] + [line] + lines[k + 1..];
    TotalAppend(lines[..k] + [lines[k]], lines[k + 1..]);
    TotalAppend(lines[..k] + [line], lines[k + 1..]);
    TotalAppend(lines[..k], [lines[k]]);
    TotalAppend(lines[..k], [line]);
  }

  // ---------------------------------------------------------------------
  // Any run of cart operations
  // ---------------------------------------------------------------------

  /** One call on the cart's mutating interface. */
  datatype Op = AddItemOp(product: Product, quantity: int) | RemoveLineOp(product: Product) | ClearOp

  function Apply(lines: seq<CartLine>, op: Op): seq<CartLine> {
    match op
    case AddItemOp(p, q) => AddedTo(lines, p, q)
    case RemoveLineOp(p) => RemoveId(lines, p.id)
    case ClearOp => []
  }

  function Run(lines: seq<CartLine>, ops: seq<Op>): seq<CartLine>
    decreases |ops|
  {
    if ops == [] then lines else Run(Apply(lines, ops[0]), ops[1..])
  }

  /** Whatever sequence of AddItem, RemoveLine and Clear calls is made, a cart
      that starts with unique ids (the empty one does) never holds two lines
      for the same product. */
  lemma {:induction false} RunPreservesUnique(lines: seq<CartLine>, ops: seq<Op>)
    requires IdsUnique(lines)
    ensures IdsUnique(Run(lines, ops))
    decreases |ops|
  {
    if ops != [] {
      match ops[0] {
        case AddItemOp(p, q) => AddPreservesUnique(lines, p, q);
        case RemoveLineOp(p) => RemovePreservesUnique(lines, p.id);
        case ClearOp =>
      }
      RunPreservesUnique(Apply(lines, ops[0]), ops[1..]);
    }
  }

  /** `OrderLineId` is only the count at insertion: after a removal two lines
      can carry the same number. */
  lemma OrderLineIdCanRepeat()
    ensures var p1, p2, p3 := Product(1, 100, 9), Product(2, 100, 9), Product(3, 100, 9);
      var r := Run([], [AddItemOp(p1, 1), AddItemOp(p2, 1), RemoveLineOp(p1), AddItemOp(p3, 1)]);
      |r| == 2 && r[0].orderLineId == r[1].orderLineId == 1
  {
    var p1, p2, p3 := Product(1, 100, 9), Product(2, 100, 9), Product(3, 100, 9);
    var s1 := AddedTo([], p1, 1);
    assert s1 == [CartLine(0, p1, 1)];
    assert FirstIndexOf(s1, 2) == None;
    var s2 := AddedTo(s1, p2, 1);
    assert s2 == [CartLine(0, p1, 1), CartLine(1, p2, 1)];
    var s3 := RemoveId(s2, 1);
    assert s2[1..] == [CartLine(1, p2, 1)];
    assert s2[1..][1..] == [];
    assert RemoveId(s2[1..], 1) == [CartLine(1, p2, 1)] + RemoveId([], 1);
    assert s3 == [CartLine(1, p2, 1)];
    assert FirstIndexOf(s3, 3) == None;
    var s4 := AddedTo(s3, p3, 1);
    assert s4 == [CartLine(1, p2, 1), CartLine(1, p3, 1)];
    var ops := [AddItemOp(p1, 1), AddItemOp(p2, 1), RemoveLineOp(p1), AddItemOp(p3, 1)];
    assert ops[1..][1..][1..][1..] == [];
    assert Run([], ops) == Run(s1, ops[1..]) == Run(s2, ops[1..][1..]);
    assert Run(s2, ops[1..][1..]) == Run(s3, ops[1..][1..][1..]) == Run(s4, []);
  }

  // ---------------------------------------------------------------------
  // The cart
  // ---------------------------------------------------------------------

  class Cart {
    /** The cart's lines, in insertion order. */
    var cartList: seq<CartLine>

    /** The object invariant: at most one line per product. */
    ghost predicate Valid()
      reads this
    {
      IdsUnique(cartList)
    }

    /** A new cart is empty. */
    constructor ()
      ensures cartList == [] && Valid()
    {
      cartList := [];
    }

    /** The read-only `Lines` view: the stored sequence itself, which on a
        valid cart holds one line per product. */
    function Lines(): (r: seq<CartLine>)
      reads this
      ensures Valid() ==> IdsUnique(r)
    {
      cartList
    }

    /** Appends a line for a new product, or raises the quantity of the
        product's line when the stock gate passes. */
    method AddItem(product: Product, quantity: int)
      modifies this
      ensures cartList == AddedTo(old(cartList), product, quantity)
      ensures old(Valid()) ==> Valid()
    {
      var found := FirstIndexOf(cartList, product.id);
      if found.None? {
        cartList := cartList + [CartLine(|cartList|, product, quantity)];
      } else if StockAllows(product, cartList[found.value]) {
        var line := cartList[found.value];
        cartList := cartList[found.value := line.(quantity := line.quantity + quantity)];
      }
      if old(Valid()) {
        AddPreservesUnique(old(cartList), product, quantity);
      }
    }

    /** Removes every line for the product's id. */
    method RemoveLine(product: Product)
      modifies this
      ensures cartList == RemoveId(old(cartList), product.id)
      ensures !HasId(cartList, product.id)
      ensures old(Valid()) ==> Valid()
    {
      cartList := RemoveId(cartList, product.id);
      RemoveIdLeavesNone(old(cartList), product.id);
      if old(Valid()) {
        RemovePreservesUnique(old(cartList), product.id);
      }
    }

    /** Sum over the lines of quantity times price; 0 for an empty cart. */
    method GetTotalValue() returns (total: int)
      ensures total == TotalOf(cartList)
      ensures cartList == [] ==> total == 0
    {
      total := 0;
      var i := 0;
      while i < |cartList|
        invariant 0 <= i <= |cartList|
        invariant total == TotalOf(cartList[..i])
      {
        assert cartList[..i + 1][..i] == cartList[..i];
        total := total + cartList[i].quantity * cartList[i].product.price;
        i := i + 1;
      }
      assert cartList[..i] == cartList;
    }

    /** Total value divided by the number of items. The source divides with
        no guard, so a zero item count is excluded. */
    method GetAverageValue() returns (average: real)
      requires QuantityOf(cartList) != 0
      ensures average == TotalOf(cartList) as real / QuantityOf(cartList) as real
      ensures average * QuantityOf(cartList) as real == TotalOf(cartList) as real
    {
      var total := 0;
      var nbProductsInCart := 0;
      var i := 0;
      while i < |cartList|
        invariant 0 <= i <= |cartList|
        invariant total == TotalOf(cartList[..i])
        invariant nbProductsInCart == QuantityOf(cartList[..i])
      {
        assert cartList[..i + 1][..i] == cartList[..i];
        total := total + cartList[i].quantity * cartList[i].product.price;
        nbProductsInCart := nbProductsInCart + cartList[i].quantity;
        i := i + 1;
      }
      assert cartList[..i] == cartList;
      average := total as real / nbProductsInCart as real;
    }

    /** The product of the first line for `productId`; the source faults
        when there is none. */
    function FindProductInCartLines(productId: int): (p: Product)
      reads this
      requires HasId(cartList, productId)
      ensures p.id == productId
      ensures exists i ::
                0 <= i < |cartList| && cartList[i].product == p &&
                forall j :: 0 <= j < i ==> cartList[j].product.id != productId
    {
      cartList[FirstIndexOf(cartList, productId).value].product
    }

    /** The line at position `index`; the source faults outside [0, count). */
    function GetCartLineByIndex(index: int): (line: CartLine)
      reads this
      requires 0 <= index < |cartList|
      ensures line == cartList[index]
      ensures Valid() ==> forall j :: 0 <= j < |cartList| && j != index ==>
        cartList[j].product.id != line.product.id
    {
      cartList[index]
    }

    /** Empties the cart, after which the total is 0. */
    method Clear()
      modifies this
      ensures cartList == [] && Valid()
      ensures TotalOf(cartList) == 0 && QuantityOf(cartList) == 0
    {
      cartList := [];
    }
  }

  // ---------------------------------------------------------------------
  // A client
  // ---------------------------------------------------------------------

  /** A cart with 2 items at 10.00 and 1 at 5.00 totals 25.00, an average of
      25.00 / 3 per item. */
  method ExampleCart() returns (total: int, average: real)
    ensures total == 2500 && average == 2500.0 / 3.0
  {
    var p1, p2 := Product(1, 1000, 10), Product(2, 500, 10);
    var cart := new Cart();
    cart.AddItem(p1, 2);
    assert cart.cartList == [CartLine(0, p1, 2)];
    cart.AddItem(p2, 1);
    var lines := [CartLine(0, p1, 2), CartLine(1, p2, 1)];
    assert cart.cartList == lines;
    assert lines[..1] == [lines[0]] && lines[..1][..0] == [];
    assert TotalOf(lines[..1][..0]) == 0 && QuantityOf(lines[..1][..0]) == 0;
    assert TotalOf(lines[..1]) == 2000 && QuantityOf(lines[..1]) == 2;
    assert TotalOf(lines) == 2500 && QuantityOf(lines) == 3;
    total := cart.GetTotalValue();
    average := cart.GetAverageValue();
  }
}
