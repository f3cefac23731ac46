/** The in-memory cart store (`CartService`). Carts sit in an insertion-ordered
    map keyed by cart id; a session's cart is the first OPEN cart of that
    session in insertion order. Every operation is one atomic step. */
module CartService {
  import opened Prelude
  import opened Models
  import OM = OrderedMap

  type CartStore = OM.OrderedMap<CartId, Cart>

  /** What a store operation leaves behind, and what it returns. */
  datatype Step<T> = Step(store: CartStore, result: T)

  /** A JS Map whose keys are the ids of the carts stored under them. */
  predicate Valid(st: CartStore) {
    OM.Valid(st) && forall id :: id in st.entries ==> st.entries[id].id == id
  }

  predicate IsOpenFor(carts: map<CartId, Cart>, id: CartId, s: SessionId) {
    id in carts && carts[id].sessionId == s && carts[id].status == CartStatus.Open
  }

  predicate HasOpenCart(st: CartStore, s: SessionId) {
    exists id :: id in st.entries && IsOpenFor(st.entries, id, s)
  }

  /** `id` is the first key, in insertion order, under which an OPEN cart
      of session `s` is stored. */
  predicate FirstOpenFor(st: CartStore, id: CartId, s: SessionId) {
    exists k :: 0 <= k < |st.order| && st.order[k] == id
                && IsOpenFor(st.entries, id, s)
                && forall j :: 0 <= j < k ==> !IsOpenFor(st.entries, st.order[j], s)
  }

  /** No session owns two OPEN carts. */
  predicate OneOpenPerSession(st: CartStore) {
    forall a, b ::
      a in st.entries && b in st.entries
      && st.entries[a].status == CartStatus.Open && st.entries[b].status == CartStatus.Open
      && st.entries[a].sessionId == st.entries[b].sessionId
      ==> a == b
  }

  /** Every stored cart has positive quantities, unique item ids and a consistent total. */
  predicate WellFormed(st: CartStore) {
    forall id :: id in st.entries ==> WellFormedCart(st.entries[id])
  }

  predicate Invariant(st: CartStore) {
    Valid(st) && OneOpenPerSession(st) && WellFormed(st)
  }

  /** The store the service starts with. */
  function EmptyStore(): (r: CartStore)
    ensures Invariant(r) && r.entries == map[] && r.order == []
  {
    OM.Empty()
  }

  // ----- Lookups -----

  /** `getCartBySession`: the first OPEN cart of session `s`, if any. */
  function GetCartBySession(st: CartStore, s: SessionId): (r: Option<Cart>)
    requires Valid(st)
    ensures r.Some? ==> r.value.sessionId == s && r.value.status == CartStatus.Open
    ensures r.Some? ==> r.value.id in st.entries && st.entries[r.value.id] == r.value
    ensures r.None? <==> !HasOpenCart(st, s)
    ensures r.Some? ==> FirstOpenFor(st, r.value.id, s)
    ensures OneOpenPerSession(st) ==> forall id :: IsOpenFor(st.entries, id, s) ==> r == Some(st.entries[id])
  {
    match Find(st.order, (id: CartId) => IsOpenFor(st.entries, id, s))
    case Some(k) =>
      assert st.entries[st.order[k]].id == st.order[k];
      Some(st.entries[st.order[k]])
    case None => None
  }

  /** At most one key is the first OPEN cart of a session, so the lookup's
      result is fully determined by the store and its key order. */
  lemma FirstOpenIsUnique(st: CartStore, a: CartId, b: CartId, s: SessionId)
    requires OM.Valid(st) && FirstOpenFor(st, a, s) && FirstOpenFor(st, b, s)
    ensures a == b
  {
    var ka :| 0 <= ka < |st.order| && st.order[ka] == a && IsOpenFor(st.entries, a, s)
              && forall j :: 0 <= j < ka ==> !IsOpenFor(st.entries, st.order[j], s);
    var kb :| 0 <= kb < |st.order| && st.order[kb] == b && IsOpenFor(st.entries, b, s)
              && forall j :: 0 <= j < kb ==> !IsOpenFor(st.entries, st.order[j], s);
    assert ka < kb ==> !IsOpenFor(st.entries, a, s);
    assert kb < ka ==> !IsOpenFor(st.entries, b, s);
  }

  /** `getCartById`. */
  function GetCartById(st: CartStore, id: CartId): (r: Option<Cart>)
    requires Valid(st)
    ensures r.Some? <==> id in st.entries
    ensures r.Some? ==> r.value.id == id && r.value == st.entries[id]
  {
    OM.Get(st, id)
  }

  /** The lines of the session's OPEN cart, or none when it has no such cart. */
  function OpenItems(st: CartStore, s: SessionId): seq<CartItem>
    requires Valid(st)
  {
    match GetCartBySession(st, s)
    case Some(c) => c.items
    case None => []
  }

  // ----- Operations on the lines of one cart -----

  /** `cart.items.find(l => l.itemId === itemId)`, as an index. */
  function FindLine(items: seq<CartItem>, itemId: ItemId): (r: Option<nat>)
    ensures r.Some? <==> HasLine(items, itemId)
    ensures r.Some? ==> r.value < |items| && items[r.value].itemId == itemId
    ensures r.Some? ==> forall j :: 0 <= j < r.value ==> items[j].itemId != itemId
    ensures r.Some? && UniqueItemIds(items) ==>
      forall j :: 0 <= j < |items| && items[j].itemId == itemId ==> j == r.value
  {
    Find(items, (l: CartItem) => l.itemId == itemId)
  }

  /** Adding one unit of `item`: bump the existing line, or append a new one
      that captures the catalog price. */
  function AddLine(items: seq<CartItem>, item: Item): (r: seq<CartItem>)
    ensures !HasLine(items, item.id) ==> r == items + [CartItem(item.id, 1, item.price)]
    ensures HasLine(items, item.id) ==> |r| == |items|
    ensures HasLine(r, item.id)
  {
    match FindLine(items, item.id)
    case Some(k) =>
      var r := items[k := items[k].(quantity := items[k].quantity + 1)];
      assert r[k].itemId == item.id;
      r
    case None =>
      var r := items + [CartItem(item.id, 1, item.price)];
      assert r[|items|].itemId == item.id;
      r
  }

  /** On an item already in the cart, adding bumps that line's quantity by
      exactly one, keeps the price it captured, and leaves every other line
      as it was. */
  lemma AddLineToExisting(items: seq<CartItem>, item: Item)
    requires HasLine(items, item.id)
    ensures var k := FindLine(items, item.id).value;
            var r := AddLine(items, item);
            && r[k].quantity == items[k].quantity + 1
            && forall j :: 0 <= j < |items| ==>
                 r[j].itemId == items[j].itemId && r[j].price == items[j].price
                 && (j != k ==> r[j] == items[j])
  {
  }

  /** Adding an item to a cart holding just one unit of it makes two units. */
  lemma AddToSingleLine(item: Item)
    ensures AddLine([CartItem(item.id, 1, item.price)], item) == [CartItem(item.id, 2, item.price)]
  {
    var items := [CartItem(item.id, 1, item.price)];
    assert items[0].itemId == item.id;
    AddLineToExisting(items, item);
    var bumped := AddLine(items, item);
    assert |bumped| == 1 && bumped[0].quantity == 2;
  }

  /** Adding to a cart whose last line is the item's own line, the only one
      with its id, bumps that last line. */
  lemma BumpLastLine(prefix: seq<CartItem>, line: CartItem, item: Item)
    requires !HasLine(prefix, item.id) && line.itemId == item.id
    ensures AddLine(prefix + [line], item) == prefix + [line.(quantity := line.quantity + 1)]
  {
    var items := prefix + [line];
    assert items[|prefix|].itemId == item.id;
    var k := FindLine(items, item.id).value;
    assert k == |prefix|;
    AddLineToExisting(items, item);
    var r := AddLine(items, item);
    assert forall j :: 0 <= j < |prefix| ==> r[j] == prefix[j];
    assert r == prefix + [line.(quantity := line.quantity + 1)];
  }

  /** The lines after adding each item of `adds` in turn. */
  function AddEach(items: seq<CartItem>, adds: seq<Item>): seq<CartItem>
    decreases |adds|
  {
    if adds == [] then items else AddEach(AddLine(items, adds[0]), adds[1..])
  }

  lemma {:induction false} AddEachToLastLine(prefix: seq<CartItem>, line: CartItem, adds: seq<Item>)
    requires !HasLine(prefix, line.itemId)
    requires forall i :: 0 <= i < |adds| ==> adds[i].id == line.itemId
    ensures AddEach(prefix + [line], adds) == prefix + [line.(quantity := line.quantity + |adds|)]
    decreases |adds|
  {
    if adds != [] {
      var bumped := line.(quantity := line.quantity + 1);
      var rest := adds[1..];
      BumpLastLine(prefix, line, adds[0]);
      assert AddEach(prefix + [line], adds) == AddEach(AddLine(prefix + [line], adds[0]), rest);
      assert forall i :: 0 <= i < |rest| ==> rest[i] == adds[i + 1];
      AddEachToLastLine(prefix, bumped, rest);
      assert bumped.(quantity := bumped.quantity + |rest|) == line.(quantity := line.quantity + |adds|);
    }
  }

  /** Adding the same item N times, whatever its catalog price at each
      addition, makes one line of quantity N holding the price captured by
      the first addition. */
  lemma AddSameItemRepeatedly(items: seq<CartItem>, adds: seq<Item>)
    requires adds != [] && !HasLine(items, adds[0].id)
    requires forall i :: 0 <= i < |adds| ==> adds[i].id == adds[0].id
    ensures AddEach(items, adds) == items + [CartItem(adds[0].id, |adds|, adds[0].price)]
  {
    var line := CartItem(adds[0].id, 1, adds[0].price);
    assert AddLine(items, adds[0]) == items + [line];
    AddEachToLastLine(items, line, adds[1..]);
  }

  /** Adding keeps every quantity positive and every item id unique. */
  lemma AddLineKeepsInvariants(items: seq<CartItem>, item: Item)
    ensures QuantitiesPositive(items) ==> QuantitiesPositive(AddLine(items, item))
    ensures UniqueItemIds(items) ==> UniqueItemIds(AddLine(items, item))
  {
    var r := AddLine(items, item);
    if HasLine(items, item.id) {
      AddLineToExisting(items, item);
    } else {
      assert forall i :: 0 <= i < |items| ==> r[i] == items[i];
    }
  }

  lemma OneMoreUnit(price: int, quantity: int)
    ensures price * (quantity + 1) == price * quantity + price
  {
  }

  /** Adding raises the sum by one unit price: the price the existing line
      captured, or the catalog price of a new line. */
  lemma AddLineTotal(items: seq<CartItem>, item: Item)
    ensures Sum(AddLine(items, item)) == Sum(items) +
              if HasLine(items, item.id) then items[FindLine(items, item.id).value].price else item.price
  {
    if HasLine(items, item.id) {
      var k := FindLine(items, item.id).value;
      var line := items[k].(quantity := items[k].quantity + 1);
      assert AddLine(items, item) == items[k := line];
      SumReplaceAt(items, k, line);
      OneMoreUnit(items[k].price, items[k].quantity);
    } else {
      var line := CartItem(item.id, 1, item.price);
      SumConcat(items, [line]);
      assert [line][..0] == [];
    }
  }

  /** `items.filter(l => l.itemId !== itemId)`. */
  function RemoveLines(items: seq<CartItem>, itemId: ItemId): (r: seq<CartItem>)
    ensures !HasLine(r, itemId)
    ensures |r| <= |items|
  {
    if items == [] then []
    else
      var rest := RemoveLines(items[1..], itemId);
      if items[0].itemId == itemId then rest
      else
        assert forall i :: 1 <= i < |rest| + 1 ==> ([items[0]] + rest)[i] == rest[i - 1];
        [items[0]] + rest
  }

  /** A line survives the filter exactly when it was there and belongs to
      another item. */
  lemma {:induction false} RemoveLinesMembers(items: seq<CartItem>, itemId: ItemId)
    ensures forall l :: l in RemoveLines(items, itemId) <==> l in items && l.itemId != itemId
  {
    if items != [] {
      RemoveLinesMembers(items[1..], itemId);
      assert forall l :: l in items <==> l == items[0] || l in items[1..];
    }
  }

  /** Removing lines keeps every quantity positive and every item id unique. */
  lemma RemoveLinesKeepsInvariants(items: seq<CartItem>, itemId: ItemId)
    ensures QuantitiesPositive(items) ==> QuantitiesPositive(RemoveLines(items, itemId))
    ensures UniqueItemIds(items) ==> UniqueItemIds(RemoveLines(items, itemId))
  {
    var r := RemoveLines(items, itemId);
    if QuantitiesPositive(items) {
      RemoveLinesMembers(items, itemId);
      forall i | 0 <= i < |r| ensures r[i].quantity >= 1 {
        assert r[i] in r;
      }
    }
    if UniqueItemIds(items) {
      RemoveLinesKeepsUnique(items, itemId);
    }
  }

  lemma {:induction false} RemoveLinesKeepsUnique(items: seq<CartItem>, itemId: ItemId)
    requires UniqueItemIds(items)
    ensures UniqueItemIds(RemoveLines(items, itemId))
  {
    if items != [] {
      var rest := RemoveLines(items[1..], itemId);
      TailUnique(items);
      RemoveLinesKeepsUnique(items[1..], itemId);
      RemoveLinesMembers(items[1..], itemId);
      if items[0].itemId != itemId {
        var r := [items[0]] + rest;
        forall i, j | 0 <= i < j < |r| ensures r[i].itemId != r[j].itemId {
          assert r[j] == rest[j - 1];
          if i == 0 {
            assert r[j] in rest;
            assert r[j] in items[1..];
          } else {
            assert r[i] == rest[i - 1];
          }
        }
      }
    }
  }

  lemma {:induction false} RemoveAbsentLine(items: seq<CartItem>, itemId: ItemId)
    requires !HasLine(items, itemId)
    ensures RemoveLines(items, itemId) == items
  {
    if items != [] {
      assert !HasLine(items[1..], itemId) by {
        forall i | 0 <= i < |items[1..]| ensures items[1..][i].itemId != itemId {
          assert items[1..][i] == items[i + 1];
        }
      }
      RemoveAbsentLine(items[1..], itemId);
      assert items == [items[0]] + items[1..];
    }
  }

  lemma TailUnique(items: seq<CartItem>)
    requires items != [] && UniqueItemIds(items)
    ensures UniqueItemIds(items[1..])
    ensures !HasLine(items[1..], items[0].itemId)
  {
    var tail := items[1..];
    forall i, j | 0 <= i < j < |tail| ensures tail[i].itemId != tail[j].itemId {
      assert tail[i] == items[i + 1] && tail[j] == items[j + 1];
    }
    forall i | 0 <= i < |tail| ensures tail[i].itemId != items[0].itemId {
      assert tail[i] == items[i + 1];
    }
  }

  /** Filtering a concatenation filters each part. */
  lemma {:induction false} RemoveLinesConcat(a: seq<CartItem>, b: seq<CartItem>, itemId: ItemId)
    ensures RemoveLines(a + b, itemId) == RemoveLines(a, itemId) + RemoveLines(b, itemId)
    decreases |a|
  {
    if a != [] {
      assert (a + b)[1..] == a[1..] + b;
      RemoveLinesConcat(a[1..], b, itemId);
    } else {
      assert a + b == b;
    }
  }

  /** With unique item ids, no line before or after position `k` has the
      item of line `k`. */
  lemma UniqueOutside(items: seq<CartItem>, k: nat)
    requires k < |items| && UniqueItemIds(items)
    ensures !HasLine(items[..k], items[k].itemId)
    ensures !HasLine(items[k + 1..], items[k].itemId)
  {
    var id := items[k].itemId;
    var before, after := items[..k], items[k + 1..];
    forall i | 0 <= i < |before| ensures before[i].itemId != id {
      assert before[i] == items[i];
    }
    forall i | 0 <= i < |after| ensures after[i].itemId != id {
      assert after[i] == items[k + 1 + i];
    }
  }

  /** The only line of an item, wherever it sits, is the one removed. */
  lemma RemoveOnlyLine(before: seq<CartItem>, line: CartItem, after: seq<CartItem>)
    requires !HasLine(before, line.itemId) && !HasLine(after, line.itemId)
    ensures RemoveLines(before + ([line] + after), line.itemId) == before + after
  {
    var id := line.itemId;
    RemoveLinesConcat(before, [line] + after, id);
    RemoveAbsentLine(before, id);
    assert ([line] + after)[1..] == after;
    RemoveAbsentLine(after, id);
  }

  /** With unique item ids, removing the line at `k` takes out exactly that line. */
  lemma RemoveUniqueLine(items: seq<CartItem>, k: nat)
    requires k < |items| && UniqueItemIds(items)
    ensures RemoveLines(items, items[k].itemId) == items[..k] + items[k + 1..]
  {
    UniqueOutside(items, k);
    SplitAt(items, k);
    RemoveOnlyLine(items[..k], items[k], items[k + 1..]);
  }

  /** A sequence is its prefix, its element at `k` and its suffix. */
  lemma SplitAt(items: seq<CartItem>, k: nat)
    requires k < |items|
    ensures items == items[..k] + ([items[k]] + items[k + 1..])
  {
  }

  /** Removing an existing line from a cart with unique item ids lowers the
      price by exactly that line's amount. */
  lemma RemoveLineTotal(cart: Cart, k: nat)
    requires k < |cart.items| && UniqueItemIds(cart.items)
    ensures CalculateCart(cart.(items := RemoveLines(cart.items, cart.items[k].itemId)))
            == CalculateCart(cart) - LineAmount(cart.items[k])
  {
    RemoveUniqueLine(cart.items, k);
    SumRemoveAt(cart.items, k);
    CalculateCartIsSum(cart);
    CalculateCartIsSum(cart.(items := RemoveLines(cart.items, cart.items[k].itemId)));
  }

  // ----- Store operations -----

  /** Installs new lines in a cart, stamps the time and recomputes the
      total, as every line mutation of the service does. */
  function Reprice(c: Cart, items: seq<CartItem>, now: Timestamp): (r: Cart)
    ensures r.items == items && TotalConsistent(r)
    ensures r.id == c.id && r.sessionId == c.sessionId && r.status == c.status && r.paymentId == c.paymentId
    ensures r.createdAt == c.createdAt && r.updatedAt == now
    ensures QuantitiesPositive(items) && UniqueItemIds(items) ==> WellFormedCart(r)
  {
    var c1 := c.(items := items, updatedAt := now);
    c1.(total := CalculateCart(c1))
  }

  /** Stores a cart under its own, already present, id. This keeps the store
      valid, keeps it well formed when the cart is, and keeps one OPEN cart
      per session when the cart is OPEN only if it already was. */
  function Replace(st: CartStore, c: Cart): (r: CartStore)
    requires Valid(st) && c.id in st.entries
    ensures Valid(r)
    ensures r.entries == st.entries[c.id := c] && r.order == st.order
    ensures r.entries.Keys == st.entries.Keys
    ensures WellFormed(st) && WellFormedCart(c) ==> WellFormed(r)
    ensures OneOpenPerSession(st) && (c.status == CartStatus.Open ==> IsOpenFor(st.entries, c.id, c.sessionId))
            ==> OneOpenPerSession(r)
  {
    OM.Set(st, c.id, c)
  }

  /** `getOrCreateCart`: the session's OPEN cart, or a new empty OPEN cart
      stored under `freshId`. */
  function GetOrCreateCart(st: CartStore, s: SessionId, freshId: CartId, now: Timestamp): (r: Step<Cart>)
    requires Valid(st) && freshId !in st.entries
    ensures Valid(r.store)
    ensures r.result.sessionId == s && r.result.status == CartStatus.Open
    ensures r.result.id in r.store.entries && r.store.entries[r.result.id] == r.result
    ensures r.result.items == OpenItems(st, s)
    ensures r.store.entries == st.entries[r.result.id := r.result]
    ensures HasOpenCart(st, s) ==> r.store == st && FirstOpenFor(st, r.result.id, s)
    ensures OneOpenPerSession(st) ==> forall id :: IsOpenFor(st.entries, id, s) ==> r.result == st.entries[id]
    ensures !HasOpenCart(st, s) ==>
      && r.result == Cart(freshId, s, [], 0, CartStatus.Open, None, now, now)
      && r.store.entries == st.entries[freshId := r.result]
      && r.store.order == st.order + [freshId]
  {
    match GetCartBySession(st, s)
    case Some(c) => Step(st, c)
    case None =>
      var c := Cart(freshId, s, [], 0, CartStatus.Open, None, now, now);
      Step(OM.Set(st, freshId, c), c)
  }

  /** Getting or creating a cart keeps one OPEN cart per session and keeps
      every cart well formed. */
  lemma GetOrCreateKeepsInvariant(st: CartStore, s: SessionId, freshId: CartId, now: Timestamp)
    requires Invariant(st) && freshId !in st.entries
    ensures Invariant(GetOrCreateCart(st, s, freshId, now).store)
  {
    var r := GetOrCreateCart(st, s, freshId, now);
    if !HasOpenCart(st, s) {
      assert WellFormedCart(r.result);
    }
  }

  /** `addItemToCart`: one more unit of `item` in the session's OPEN cart,
      which is created first when the session has none. */
  function AddItemToCart(st: CartStore, s: SessionId, item: Item, freshId: CartId, now: Timestamp): (r: Step<Cart>)
    requires Valid(st) && freshId !in st.entries
    ensures Valid(r.store)
    ensures r.result.sessionId == s && r.result.status == CartStatus.Open
    ensures r.result.id in r.store.entries && r.store.entries[r.result.id] == r.result
    ensures r.result.items == AddLine(OpenItems(st, s), item)
    ensures TotalConsistent(r.result)
    ensures r.store.entries == st.entries[r.result.id := r.result]
    ensures r.result.updatedAt == now
    ensures HasOpenCart(st, s) ==>
      var before := GetCartBySession(st, s).value;
      && r.result.id == before.id && r.result.paymentId == before.paymentId
      && r.result.createdAt == before.createdAt && r.store.order == st.order
    ensures !HasOpenCart(st, s) ==>
      && r.result.id == freshId && r.result.paymentId == None && r.result.createdAt == now
      && r.store.order == st.order + [freshId]
  {
    var g := GetOrCreateCart(st, s, freshId, now);
    var c := g.result;
    var c2 := Reprice(c, AddLine(c.items, item), now);
    OM.OverwriteTwice(st.entries, c.id, c, c2);
    Step(Replace(g.store, c2), c2)
  }

  /** Adding an item keeps one OPEN cart per session and keeps every cart well formed. */
  lemma AddItemKeepsInvariant(st: CartStore, s: SessionId, item: Item, freshId: CartId, now: Timestamp)
    requires Invariant(st) && freshId !in st.entries
    ensures Invariant(AddItemToCart(st, s, item, freshId, now).store)
  {
    var g := GetOrCreateCart(st, s, freshId, now);
    GetOrCreateKeepsInvariant(st, s, freshId, now);
    var c := g.result;
    assert WellFormedCart(c);
    var r := AddItemToCart(st, s, item, freshId, now);
    assert r.result == Reprice(c, AddLine(c.items, item), now);
    AddLineKeepsInvariants(c.items, item);
    assert WellFormedCart(r.result);
    assert r.store == Replace(g.store, r.result);
  }

  /** `updateItemQuantity`: not found unless the session has an OPEN cart
      holding a line for `itemId`; a quantity of 0 or less removes the line,
      any other quantity is stored as given. */
  function UpdateItemQuantity(st: CartStore, s: SessionId, itemId: ItemId, quantity: int, now: Timestamp): (r: Step<Option<Cart>>)
    requires Valid(st)
    ensures Valid(r.store)
    ensures r.result.None? <==> !HasOpenCart(st, s) || !HasLine(OpenItems(st, s), itemId)
    ensures r.result.None? ==> r.store == st
    ensures r.result.Some? ==>
      var before := GetCartBySession(st, s).value;
      var after := r.result.value;
      && after.id == before.id && after.sessionId == s && after.status == CartStatus.Open
      && after.paymentId == before.paymentId && after.createdAt == before.createdAt && after.updatedAt == now
      && TotalConsistent(after)
      && r.store.entries == st.entries[after.id := after] && r.store.order == st.order
      && (quantity <= 0 ==> after.items == RemoveLines(before.items, itemId))
      && (quantity > 0 ==>
            var k := FindLine(before.items, itemId).value;
            |after.items| == |before.items| && after.items[k] == before.items[k].(quantity := quantity)
            && forall j :: 0 <= j < |before.items| && j != k ==> after.items[j] == before.items[j])
  {
    match GetCartBySession(st, s)
    case None => Step(st, None)
    case Some(c) =>
      match FindLine(c.items, itemId)
      case None => Step(st, None)
      case Some(k) =>
        var items := if quantity <= 0 then RemoveLines(c.items, itemId)
                     else c.items[k := c.items[k].(quantity := quantity)];
        var c2 := Reprice(c, items, now);
        Step(Replace(st, c2), Some(c2))
  }

  /** A positive quantity stored in one line keeps quantities positive and
      item ids unique. */
  lemma SetQuantityKeepsInvariants(items: seq<CartItem>, k: nat, quantity: int)
    requires k < |items| && quantity > 0
    requires QuantitiesPositive(items) && UniqueItemIds(items)
    ensures var r := items[k := items[k].(quantity := quantity)];
            QuantitiesPositive(r) && UniqueItemIds(r)
  {
    var r := items[k := items[k].(quantity := quantity)];
    assert forall j :: 0 <= j < |r| ==> r[j].itemId == items[j].itemId;
  }

  /** Setting a quantity keeps one OPEN cart per session, and keeps every
      quantity positive and every item id unique: a quantity of 0 or less
      removes the line and a positive one is stored as it is. */
  lemma UpdateQuantityKeepsInvariant(st: CartStore, s: SessionId, itemId: ItemId, quantity: int, now: Timestamp)
    requires Invariant(st)
    ensures Invariant(UpdateItemQuantity(st, s, itemId, quantity, now).store)
  {
    var r := UpdateItemQuantity(st, s, itemId, quantity, now);
    if r.result.Some? {
      var before := GetCartBySession(st, s).value;
      var after := r.result.value;
      assert WellFormedCart(before);
      if quantity <= 0 {
        RemoveLinesKeepsInvariants(before.items, itemId);
      } else {
        var k := FindLine(before.items, itemId).value;
        SetQuantityKeepsInvariants(before.items, k, quantity);
      }
      assert r.store == Replace(st, after);
    }
  }

  /** `removeItemFromCart`: not found only when the session has no OPEN cart;
      an absent line leaves the lines as they are. */
  function RemoveItemFromCart(st: CartStore, s: SessionId, itemId: ItemId, now: Timestamp): (r: Step<Option<Cart>>)
    requires Valid(st)
    ensures Valid(r.store)
    ensures r.result.None? <==> !HasOpenCart(st, s)
    ensures r.result.None? ==> r.store == st
    ensures r.result.Some? ==>
      var before := GetCartBySession(st, s).value;
      var after := r.result.value;
      && after.id == before.id && after.sessionId == s && after.status == CartStatus.Open
      && after.paymentId == before.paymentId && after.createdAt == before.createdAt && after.updatedAt == now
      && after.items == RemoveLines(before.items, itemId)
      && (!HasLine(before.items, itemId) ==> after.items == before.items)
      && TotalConsistent(after)
      && r.store.entries == st.entries[after.id := after] && r.store.order == st.order
  {
    match GetCartBySession(st, s)
    case None => Step(st, None)
    case Some(c) =>
      var c2 := Reprice(c, RemoveLines(c.items, itemId), now);
      assert !HasLine(c.items, itemId) ==> c2.items == c.items by {
        if !HasLine(c.items, itemId) {
          RemoveAbsentLine(c.items, itemId);
        }
      }
      Step(Replace(st, c2), Some(c2))
  }

  /** Removing a line keeps one OPEN cart per session and keeps every cart
      well formed. */
  lemma RemoveItemKeepsInvariant(st: CartStore, s: SessionId, itemId: ItemId, now: Timestamp)
    requires Invariant(st)
    ensures Invariant(RemoveItemFromCart(st, s, itemId, now).store)
  {
    var r := RemoveItemFromCart(st, s, itemId, now);
    if r.result.Some? {
      var before := GetCartBySession(st, s).value;
      var after := r.result.value;
      assert WellFormedCart(before);
      RemoveLinesKeepsInvariants(before.items, itemId);
      assert WellFormedCart(after);
      assert r.store == Replace(st, after);
    }
  }

  /** `updateCartStatus`: not found for an unknown id; otherwise any status
      replaces any status, and the payment id is replaced only by a
      non-empty one. The lines and the total are left alone. */
  function UpdateCartStatus(st: CartStore, cartId: CartId, status: CartStatus, paymentId: Option<PaymentId>, now: Timestamp): (r: Step<Option<Cart>>)
    requires Valid(st)
    ensures Valid(r.store)
    ensures r.result.None? <==> cartId !in st.entries
    ensures r.result.None? ==> r.store == st
    ensures r.result.Some? ==>
      var before := st.entries[cartId];
      var after := r.result.value;
      && after.id == cartId && after.sessionId == before.sessionId
      && after.items == before.items && after.total == before.total
      && after.status == status
      && after.paymentId == (if paymentId.Some? && paymentId.value != "" then paymentId else before.paymentId)
      && after.createdAt == before.createdAt && after.updatedAt == now
      && r.store.entries == st.entries[cartId := after] && r.store.order == st.order
    ensures WellFormed(st) ==> WellFormed(r.store)
    ensures OneOpenPerSession(st) && status != CartStatus.Open ==> OneOpenPerSession(r.store)
  {
    if cartId !in st.entries then Step(st, None)
    else
      var c := st.entries[cartId];
      var c1 := c.(status := status,
                   paymentId := if paymentId.Some? && paymentId.value != "" then paymentId else c.paymentId,
                   updatedAt := now);
      Step(Replace(st, c1), Some(c1))
  }

  // ----- Properties relating several operations -----

  /** Setting a line's quantity to 0 or less has the same effect as removing
      the line. */
  lemma QuantityZeroIsRemove(st: CartStore, s: SessionId, itemId: ItemId, quantity: int, now: Timestamp)
    requires Valid(st) && quantity <= 0
    requires HasLine(OpenItems(st, s), itemId)
    ensures UpdateItemQuantity(st, s, itemId, quantity, now) == RemoveItemFromCart(st, s, itemId, now)
  {
  }

  /** Once a cart is COMPLETED, its session no longer finds it. */
  lemma CompletedCartIsNotFound(st: CartStore, cartId: CartId, paymentId: Option<PaymentId>, now: Timestamp)
    requires Valid(st) && cartId in st.entries
    ensures var r := UpdateCartStatus(st, cartId, CartStatus.Completed, paymentId, now);
            var s := st.entries[cartId].sessionId;
            var found := GetCartBySession(r.store, s);
            found.None? || found.value.id != cartId
  {
  }

  /** Reopening a cart is the one way to give a session a second OPEN cart:
      here session "s" has a COMPLETED cart "a" and an OPEN cart "b". */
  lemma ReopeningBreaksOneOpen()
    ensures var a := Cart("a", "s", [], 0, CartStatus.Completed, None, 0, 0);
            var b := Cart("b", "s", [], 0, CartStatus.Open, None, 0, 0);
            var st := OM.OrderedMap(map["a" := a, "b" := b], ["a", "b"]);
            && Invariant(st)
            && !OneOpenPerSession(UpdateCartStatus(st, "a", CartStatus.Open, None, 1).store)
  {
    var a := Cart("a", "s", [], 0, CartStatus.Completed, None, 0, 0);
    var b := Cart("b", "s", [], 0, CartStatus.Open, None, 0, 0);
    var st := OM.OrderedMap(map["a" := a, "b" := b], ["a", "b"]);
    assert "a" != "b";
    var after := UpdateCartStatus(st, "a", CartStatus.Open, None, 1).store;
    assert after.entries["a"].status == CartStatus.Open;
    assert after.entries["b"].status == CartStatus.Open;
  }
}
