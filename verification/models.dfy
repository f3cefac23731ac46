/** Records and enums of the shop backend, and the cart pricing fold
    `calculateCart`. Every price and amount is an integer number of cents. */
module Models {
  import opened Prelude

  type SessionId = string
  type CartId = string
  type ItemId = string
  type PaymentId = string

  /** A reading of the server clock (`new Date()`), supplied to every step. */
  type Timestamp = int

  datatype PaymentType = CashAppPay | Afterpay

  /** Both status enums have a `Completed` member, so uses are qualified. */
  datatype PaymentStatus = Pending | Authorized | Captured | Completed | Failed | Refunded

  datatype CartStatus = Open | InProgress | Completed

  /** A catalog entry; `price` is in cents. */
  datatype Item = Item(id: ItemId, name: string, description: string, price: int, imageUrl: string, sku: string)

  /** One cart line; `price` is the unit price captured when the line was created. */
  datatype CartItem = CartItem(itemId: ItemId, quantity: int, price: int)

  datatype Cart = Cart(
    id: CartId,
    sessionId: SessionId,
    items: seq<CartItem>,
    total: int,
    status: CartStatus,
    paymentId: Option<PaymentId>,
    createdAt: Timestamp,
    updatedAt: Timestamp)

  /** The values the backend puts into a payment's free-form metadata. */
  datatype MetaValue = Text(text: string) | Instant(at: Timestamp)

  type Metadata = map<string, MetaValue>

  datatype Payment = Payment(
    id: PaymentId,
    cartId: CartId,
    paymentType: PaymentType,
    status: PaymentStatus,
    amount: int,
    currency: string,
    providerTransactionId: Option<string>,
    metadata: Option<Metadata>,
    createdAt: Timestamp,
    updatedAt: Timestamp)

  // ----- Pricing -----

  /** What one line contributes to the total: unit price times quantity. */
  function LineAmount(line: CartItem): int {
    line.price * line.quantity
  }

  /** The `reduce` of `calculateCart`: a left fold that adds each line to `acc`. */
  function Fold(acc: int, items: seq<CartItem>): int
    decreases |items|
  {
    if items == [] then acc else Fold(acc + LineAmount(items[0]), items[1..])
  }

  /** `calculateCart`: folds the lines of the cart starting from 0. */
  function CalculateCart(cart: Cart): int {
    Fold(0, cart.items)
  }

  /** Reference definition of the total: the sum of the line amounts,
      taken from the last line backwards. */
  function Sum(items: seq<CartItem>): int {
    if items == [] then 0 else Sum(items[..|items| - 1]) + LineAmount(items[|items| - 1])
  }

  lemma {:induction false} SumConcat(a: seq<CartItem>, b: seq<CartItem>)
    ensures Sum(a + b) == Sum(a) + Sum(b)
    decreases |b|
  {
    if b == [] {
      assert a + b == a;
    } else {
      var n := |b| - 1;
      assert (a + b)[..|a + b| - 1] == a + b[..n];
      SumConcat(a, b[..n]);
    }
  }

  lemma SumFront(items: seq<CartItem>)
    requires items != []
    ensures Sum(items) == LineAmount(items[0]) + Sum(items[1..])
  {
    assert items == [items[0]] + items[1..];
    SumConcat([items[0]], items[1..]);
    assert [items[0]][..0] == [];
  }

  /** The fold from any accumulator adds exactly the sum of the lines. */
  lemma {:induction false} FoldIsSum(acc: int, items: seq<CartItem>)
    ensures Fold(acc, items) == acc + Sum(items)
    decreases |items|
  {
    if items != [] {
      FoldIsSum(acc + LineAmount(items[0]), items[1..]);
      SumFront(items);
    }
  }

  /** `calculateCart` is the sum of price times quantity over the lines. */
  lemma CalculateCartIsSum(cart: Cart)
    ensures CalculateCart(cart) == Sum(cart.items)
  {
    FoldIsSum(0, cart.items);
  }

  /** A cart with no lines is priced at 0. */
  lemma CalculateEmptyCart(cart: Cart)
    requires cart.items == []
    ensures CalculateCart(cart) == 0
  {
  }

  /** A cart of one line is priced at that line's amount. */
  lemma CalculateSingleLine(cart: Cart)
    requires |cart.items| == 1
    ensures CalculateCart(cart) == LineAmount(cart.items[0])
  {
    assert cart.items[1..] == [];
    assert Fold(0, cart.items) == Fold(LineAmount(cart.items[0]), []);
  }

  /** Appending a line raises the price by exactly that line's amount. */
  lemma CalculateAppend(cart: Cart, line: CartItem)
    ensures CalculateCart(cart.(items := cart.items + [line])) == CalculateCart(cart) + LineAmount(line)
  {
    CalculateCartIsSum(cart);
    CalculateCartIsSum(cart.(items := cart.items + [line]));
    SumConcat(cart.items, [line]);
    assert [line][..0] == [];
  }

  /** The price reads nothing but the lines: not the stored total, the id,
      the session, the status, the payment id or the timestamps. */
  lemma CalculateReadsOnlyItems(a: Cart, b: Cart)
    requires a.items == b.items
    ensures CalculateCart(a) == CalculateCart(b)
  {
  }

  /** Removing the line at `i` takes exactly its amount off the sum. */
  lemma SumRemoveAt(items: seq<CartItem>, i: nat)
    requires i < |items|
    ensures Sum(items) == Sum(items[..i] + items[i + 1..]) + LineAmount(items[i])
  {
    assert items == items[..i] + ([items[i]] + items[i + 1..]);
    SumConcat(items[..i], [items[i]] + items[i + 1..]);
    SumFront([items[i]] + items[i + 1..]);
    assert ([items[i]] + items[i + 1..])[1..] == items[i + 1..];
    SumConcat(items[..i], items[i + 1..]);
  }

  /** Replacing the line at `i` changes the sum by the difference of the two amounts. */
  lemma SumReplaceAt(items: seq<CartItem>, i: nat, line: CartItem)
    requires i < |items|
    ensures Sum(items[i := line]) == Sum(items) - LineAmount(items[i]) + LineAmount(line)
  {
    var updated := items[i := line];
    SumRemoveAt(items, i);
    SumRemoveAt(updated, i);
    assert updated[..i] + updated[i + 1..] == items[..i] + items[i + 1..];
  }

  /** The sum does not depend on the order of the lines. */
  lemma {:induction false} SumPermutation(a: seq<CartItem>, b: seq<CartItem>)
    requires multiset(a) == multiset(b)
    ensures Sum(a) == Sum(b)
    decreases |a|
  {
    if a == [] {
      assert |b| == |multiset(b)| == 0;
    } else {
      var n := |a| - 1;
      var x := a[n];
      assert x in multiset(b);
      var i :| 0 <= i < |b| && b[i] == x;
      var rest := b[..i] + b[i + 1..];
      assert a == a[..n] + [x];
      assert b == b[..i] + [x] + b[i + 1..];
      assert multiset(a[..n]) == multiset(a) - multiset{x};
      assert multiset(rest) == multiset(b) - multiset{x};
      SumPermutation(a[..n], rest);
      SumRemoveAt(b, i);
    }
  }

  /** Reordering the lines of a cart does not change its price. */
  lemma CalculatePermutation(a: Cart, b: Cart)
    requires multiset(a.items) == multiset(b.items)
    ensures CalculateCart(a) == CalculateCart(b)
  {
    CalculateCartIsSum(a);
    CalculateCartIsSum(b);
    SumPermutation(a.items, b.items);
  }

  // ----- Cart invariants -----

  predicate HasLine(items: seq<CartItem>, itemId: ItemId) {
    exists i :: 0 <= i < |items| && items[i].itemId == itemId
  }

  predicate QuantitiesPositive(items: seq<CartItem>) {
    forall i :: 0 <= i < |items| ==> items[i].quantity >= 1
  }

  predicate UniqueItemIds(items: seq<CartItem>) {
    forall i, j :: 0 <= i < j < |items| ==> items[i].itemId != items[j].itemId
  }

  /** The stored total is the price of the current lines. */
  predicate TotalConsistent(cart: Cart) {
    cart.total == CalculateCart(cart)
  }

  predicate WellFormedCart(cart: Cart) {
    QuantitiesPositive(cart.items) && UniqueItemIds(cart.items) && TotalConsistent(cart)
  }
}
