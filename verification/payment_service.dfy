/** The in-memory payment ledger (`PaymentService`). Payments sit in an
    insertion-ordered map keyed by payment id. */
module PaymentService {
  import opened Prelude
  import opened Models
  import OM = OrderedMap

  type Ledger = OM.OrderedMap<PaymentId, Payment>

  /** What a ledger operation leaves behind, and what it returns. */
  datatype Posted<T> = Posted(ledger: Ledger, result: T)

  /** A JS Map whose keys are the ids of the payments stored under them. */
  predicate Valid(l: Ledger) {
    OM.Valid(l) && forall id :: id in l.entries ==> l.entries[id].id == id
  }

  /** The ledger the service starts with. */
  function EmptyLedger(): (r: Ledger)
    ensures Valid(r) && r.entries == map[] && r.order == []
  {
    OM.Empty()
  }

  /** `createPayment`: a PENDING payment stored under the fresh id `id`,
      holding the given fields as they are. */
  function CreatePayment(
    l: Ledger, id: PaymentId, cartId: CartId, paymentType: PaymentType, amount: int, currency: string,
    providerTransactionId: Option<string>, metadata: Option<Metadata>, now: Timestamp): (r: Posted<Payment>)
    requires Valid(l) && id !in l.entries
    ensures Valid(r.ledger)
    ensures r.result.id == id && r.result.status == PaymentStatus.Pending
    ensures && r.result.cartId == cartId && r.result.paymentType == paymentType
            && r.result.amount == amount && r.result.currency == currency
            && r.result.providerTransactionId == providerTransactionId && r.result.metadata == metadata
    ensures r.result.createdAt == now && r.result.updatedAt == now
    ensures r.ledger.entries == l.entries[id := r.result]
    ensures r.ledger.order == l.order + [id]
  {
    var p := Payment(id, cartId, paymentType, PaymentStatus.Pending, amount, currency,
                     providerTransactionId, metadata, now, now);
    Posted(OM.Set(l, id, p), p)
  }

  /** `updatePaymentStatus`: not found for an unknown id; otherwise any
      status replaces any status and nothing else about the payment but its
      update time changes. */
  function UpdatePaymentStatus(l: Ledger, id: PaymentId, status: PaymentStatus, now: Timestamp): (r: Posted<Option<Payment>>)
    requires Valid(l)
    ensures Valid(r.ledger)
    ensures r.result.None? <==> id !in l.entries
    ensures r.result.None? ==> r.ledger == l
    ensures r.result.Some? ==>
      var before := l.entries[id];
      var after := r.result.value;
      && after.status == status && after.updatedAt == now
      && after.id == id && after.cartId == before.cartId && after.paymentType == before.paymentType
      && after.amount == before.amount && after.currency == before.currency
      && after.providerTransactionId == before.providerTransactionId
      && after.metadata == before.metadata && after.createdAt == before.createdAt
      && r.ledger.entries == l.entries[id := after] && r.ledger.order == l.order
  {
    match OM.Get(l, id)
    case None => Posted(l, None)
    case Some(p) =>
      var p1 := p.(status := status, updatedAt := now);
      Posted(OM.Set(l, id, p1), Some(p1))
  }

  /** `getPaymentById`. */
  function GetPaymentById(l: Ledger, id: PaymentId): (r: Option<Payment>)
    requires Valid(l)
    ensures r.Some? <==> id in l.entries
    ensures r.Some? ==> r.value.id == id && r.value == l.entries[id]
  {
    OM.Get(l, id)
  }

  /** The payments of `cartId` among the ids `ids`, in that order. */
  function Collect(entries: map<PaymentId, Payment>, ids: seq<PaymentId>, cartId: CartId): (r: seq<Payment>)
    ensures forall p :: p in r ==> p.cartId == cartId
    ensures forall p :: p in r ==> exists i :: 0 <= i < |ids| && ids[i] in entries && entries[ids[i]] == p
    ensures forall i :: 0 <= i < |ids| && ids[i] in entries && entries[ids[i]].cartId == cartId ==> entries[ids[i]] in r
    ensures |r| <= |ids|
  {
    if ids == [] then []
    else
      var rest := Collect(entries, ids[1..], cartId);
      assert forall i :: 1 <= i < |ids| ==> ids[i] == ids[1..][i - 1];
      var head := ids[0];
      if head in entries && entries[head].cartId == cartId then [entries[head]] + rest else rest
  }

  /** `getPaymentsByCartId`: exactly the stored payments of `cartId`, in the
      order they were created. */
  function GetPaymentsByCartId(l: Ledger, cartId: CartId): (r: seq<Payment>)
    requires Valid(l)
    ensures forall p :: p in r ==> p.cartId == cartId && p.id in l.entries && l.entries[p.id] == p
    ensures forall id :: id in l.entries && l.entries[id].cartId == cartId ==> l.entries[id] in r
  {
    var r := Collect(l.entries, l.order, cartId);
    assert forall id :: id in l.entries ==> exists i :: 0 <= i < |l.order| && l.order[i] == id;
    r
  }

  // ----- Properties relating several operations -----

  lemma {:induction false} CollectAppend(entries: map<PaymentId, Payment>, ids: seq<PaymentId>, id: PaymentId, cartId: CartId)
    ensures Collect(entries, ids + [id], cartId)
            == Collect(entries, ids, cartId) + (if id in entries && entries[id].cartId == cartId then [entries[id]] else [])
    decreases |ids|
  {
    if ids == [] {
      assert [id][1..] == [];
    } else {
      assert (ids + [id])[1..] == ids[1..] + [id];
      CollectAppend(entries, ids[1..], id, cartId);
    }
  }

  lemma {:induction false} CollectIgnoresOtherKeys(entries: map<PaymentId, Payment>, ids: seq<PaymentId>, id: PaymentId, p: Payment, cartId: CartId)
    requires id !in ids
    ensures Collect(entries[id := p], ids, cartId) == Collect(entries, ids, cartId)
    decreases |ids|
  {
    if ids != [] {
      assert ids[0] != id;
      assert id !in ids[1..];
      CollectIgnoresOtherKeys(entries, ids[1..], id, p, cartId);
    }
  }

  /** Storing a new payment under a new id, at the end of the order, adds it
      at the end of its own cart's payment list and to no other list. */
  lemma AppendToLedger(l: Ledger, l2: Ledger, id: PaymentId, p: Payment, cartId: CartId)
    requires Valid(l) && Valid(l2) && id !in l.entries
    requires l2.entries == l.entries[id := p] && l2.order == l.order + [id]
    ensures GetPaymentsByCartId(l2, cartId)
            == GetPaymentsByCartId(l, cartId) + (if p.cartId == cartId then [p] else [])
  {
    assert id !in l.order;
    CollectAppend(l2.entries, l.order, id, cartId);
    CollectIgnoresOtherKeys(l.entries, l.order, id, p, cartId);
  }

  /** Each `createPayment` for a cart adds that one payment at the end of the
      cart's payment list, and leaves every other cart's list alone. */
  lemma CreateAppendsToCartPayments(
    l: Ledger, id: PaymentId, cartId: CartId, paymentType: PaymentType, amount: int, currency: string,
    providerTransactionId: Option<string>, metadata: Option<Metadata>, now: Timestamp, other: CartId)
    requires Valid(l) && id !in l.entries
    ensures var r := CreatePayment(l, id, cartId, paymentType, amount, currency, providerTransactionId, metadata, now);
            && GetPaymentsByCartId(r.ledger, cartId) == GetPaymentsByCartId(l, cartId) + [r.result]
            && (other != cartId ==> GetPaymentsByCartId(r.ledger, other) == GetPaymentsByCartId(l, other))
  {
    var r := CreatePayment(l, id, cartId, paymentType, amount, currency, providerTransactionId, metadata, now);
    AppendToLedger(l, r.ledger, id, r.result, cartId);
    AppendToLedger(l, r.ledger, id, r.result, other);
  }

  /** Looking up a payment just created returns the created record, and
      every payment stored before is still found unchanged. */
  lemma CreateThenGet(
    l: Ledger, id: PaymentId, cartId: CartId, paymentType: PaymentType, amount: int, currency: string,
    providerTransactionId: Option<string>, metadata: Option<Metadata>, now: Timestamp, other: PaymentId)
    requires Valid(l) && id !in l.entries
    ensures var r := CreatePayment(l, id, cartId, paymentType, amount, currency, providerTransactionId, metadata, now);
            && GetPaymentById(r.ledger, id) == Some(r.result)
            && (other != id ==> GetPaymentById(r.ledger, other) == GetPaymentById(l, other))
  {
  }
}
