/**
 * The `orders` collection as the routes use it: documents keyed by `_id`, kept in insertion (natural)
 * order, queried with `findOne` and written with `save`, which runs the schema's validators and the
 * unique index on `orderId`.
 */
module OrderStore {
  import opened Wrappers
  import opened Text
  import Bytes
  import opened OrderSchema

  /** The filters the routes pass to `findOne`. */
  datatype Query =
    | ByTransactionId(transactionId: Option<string>)   // { transactionId }
    | ByIdOrOrderId(ref: string)                        // { $or: [{ _id: ref }, { orderId: ref }] }
    | ByPaymentId(paymentId: Option<string>)            // { paymentId }

  function ToLowerHex(c: char): char {
    if 'A' <= c <= 'F' then (c as int - 'A' as int + 'a' as int) as char else c
  }

  /** Casting a filter value to an ObjectId: 24 hex digits in either case, or nothing. */
  function CastObjectId(s: string): (r: Option<ObjectId>)
    ensures r.Some? ==> IsObjectId(r.value)
    ensures IsObjectId(s) ==> r == Some(s)
    ensures r.Some? <==> |s| == 24 && forall i :: 0 <= i < |s| ==> Bytes.IsHexDigit(s[i])
  {
    if |s| == 24 && forall i :: 0 <= i < |s| ==> Bytes.IsHexDigit(s[i]) then
      var t := seq(|s|, i requires 0 <= i < |s| => ToLowerHex(s[i]));
      assert forall i :: 0 <= i < |t| ==> IsLowerHex(t[i]);
      if IsObjectId(s) then assert t == s; Some(t) else Some(t)
    else None
  }

  /** The `CastError` message for an `_id` filter on `model` whose value is not an ObjectId. */
  function CastMessageFor(model: string, ref: string): string {
    "Cast to ObjectId failed for value \"" + ref + "\" (type string) at path \"_id\" for model \"" + model + "\""
  }

  function CastMessage(ref: string): string {
    CastMessageFor("Order", ref)
  }

  /**
   * Whether a document satisfies a filter. An equality filter on a path compares the document's value
   * at that path, an absent value included (an `undefined` filter value is sent as null, which matches
   * documents lacking the path). `paymentId` is not a path of the schema, so no document has it.
   */
  predicate Matches(o: Order, q: Query)
    requires q.ByIdOrOrderId? ==> CastObjectId(q.ref).Some?
  {
    match q
    case ByTransactionId(t) => o.transactionId == t
    case ByIdOrOrderId(ref) => o.id == CastObjectId(ref).value || o.orderId == Some(ref)
    case ByPaymentId(p) => p.None?
  }

  /** The first key, in the given order, whose document matches. */
  function FirstMatch(ids: seq<ObjectId>, orders: map<ObjectId, Order>, q: Query): (r: Option<ObjectId>)
    requires forall i :: 0 <= i < |ids| ==> ids[i] in orders
    requires q.ByIdOrOrderId? ==> CastObjectId(q.ref).Some?
    ensures r.Some? ==> r.value in ids && Matches(orders[r.value], q)
    ensures r.Some? ==> exists i :: 0 <= i < |ids| && ids[i] == r.value && forall j :: 0 <= j < i ==> !Matches(orders[ids[j]], q)
    ensures r.None? <==> forall i :: 0 <= i < |ids| ==> !Matches(orders[ids[i]], q)
  {
    var i := FirstMatchFrom(ids, orders, q, 0);
    if i < |ids| then Some(ids[i]) else None
  }

  /** The position of the first match at or after `from`, or `|ids|` when there is none. */
  function FirstMatchFrom(ids: seq<ObjectId>, orders: map<ObjectId, Order>, q: Query, from: nat): (i: nat)
    requires forall i :: 0 <= i < |ids| ==> ids[i] in orders
    requires q.ByIdOrOrderId? ==> CastObjectId(q.ref).Some?
    requires from <= |ids|
    ensures from <= i <= |ids|
    ensures forall j :: from <= j < i ==> !Matches(orders[ids[j]], q)
    ensures i < |ids| ==> Matches(orders[ids[i]], q)
    decreases |ids| - from
  {
    if from == |ids| then from
    else if Matches(orders[ids[from]], q) then from
    else FirstMatchFrom(ids, orders, q, from + 1)
  }

  /** Every stored document passed validation, sits under its own `_id`, and `orderId` is unique. */
  ghost predicate ValidState(ids: seq<ObjectId>, orders: map<ObjectId, Order>) {
    (forall i :: 0 <= i < |ids| ==> ids[i] in orders)
    && (forall id :: id in orders ==> id in ids)
    && (forall i, j :: 0 <= i < j < |ids| ==> ids[i] != ids[j])
    && (forall id :: id in orders ==> orders[id].id == id && IsObjectId(id) && SchemaValid(orders[id]))
    && (forall a, b :: a in orders && b in orders && a != b ==> orders[a].orderId != orders[b].orderId)
  }

  /** Another stored document already holds the `orderId` of `o`. */
  predicate OrderIdTaken(orders: map<ObjectId, Order>, o: Order) {
    exists id :: id in orders && id != o.id && orders[id].orderId == o.orderId
  }

  /** Storing a valid document whose `orderId` is free keeps the collection valid. */
  lemma StorePreservesValid(ids: seq<ObjectId>, orders: map<ObjectId, Order>, o: Order)
    requires ValidState(ids, orders)
    requires SchemaValid(o) && IsObjectId(o.id) && !OrderIdTaken(orders, o)
    ensures ValidState(if o.id in orders then ids else ids + [o.id], orders[o.id := o])
  {
    StoreKeepsIndex(ids, orders, o);
    StoreKeepsDocuments(orders, o);
    StoreKeepsOrderIdsUnique(orders, o);
  }

  /** The natural order still lists every key exactly once. */
  lemma StoreKeepsIndex(ids: seq<ObjectId>, orders: map<ObjectId, Order>, o: Order)
    requires ValidState(ids, orders)
    ensures var ids' := if o.id in orders then ids else ids + [o.id];
      var orders' := orders[o.id := o];
      (forall i :: 0 <= i < |ids'| ==> ids'[i] in orders')
      && (forall id :: id in orders' ==> id in ids')
      && (forall i, j :: 0 <= i < j < |ids'| ==> ids'[i] != ids'[j])
  {
  }

  lemma StoreKeepsDocuments(orders: map<ObjectId, Order>, o: Order)
    requires forall id :: id in orders ==> orders[id].id == id && IsObjectId(id) && SchemaValid(orders[id])
    requires SchemaValid(o) && IsObjectId(o.id)
    ensures var orders' := orders[o.id := o];
      forall id :: id in orders' ==> orders'[id].id == id && IsObjectId(id) && SchemaValid(orders'[id])
  {
  }

  lemma StoreKeepsOrderIdsUnique(orders: map<ObjectId, Order>, o: Order)
    requires forall a, b :: a in orders && b in orders && a != b ==> orders[a].orderId != orders[b].orderId
    requires !OrderIdTaken(orders, o)
    ensures var orders' := orders[o.id := o];
      forall a, b :: a in orders' && b in orders' && a != b ==> orders'[a].orderId != orders'[b].orderId
  {
    var orders' := orders[o.id := o];
    forall a, b | a in orders' && b in orders' && a != b
      ensures orders'[a].orderId != orders'[b].orderId
    {
      if a == o.id {
        assert !(b in orders && b != o.id && orders[b].orderId == o.orderId);
      } else if b == o.id {
        assert !(a in orders && a != o.id && orders[a].orderId == o.orderId);
      }
    }
  }

  /** `Order.findOne(filter)`: the first matching document's key, or the cast error the filter raises. */
  function Find(ids: seq<ObjectId>, orders: map<ObjectId, Order>, q: Query): (r: Result<Option<ObjectId>, string>)
    requires ValidState(ids, orders)
    ensures r.Err? <==> q.ByIdOrOrderId? && CastObjectId(q.ref).None?
    ensures r.Ok? && r.value.Some? ==> r.value.value in orders && Matches(orders[r.value.value], q)
    ensures r.Ok? && r.value.None? ==> forall id :: id in orders ==> !Matches(orders[id], q)
  {
    if q.ByIdOrOrderId? && CastObjectId(q.ref).None? then Err(CastMessage(q.ref))
    else
      var r := FirstMatch(ids, orders, q);
      if r.None? then
        assert forall id :: id in orders ==> !Matches(orders[id], q) by {
          forall id | id in orders ensures !Matches(orders[id], q) {
            var i :| 0 <= i < |ids| && ids[i] == id;
          }
        }
        Ok(r)
      else Ok(r)
  }

  /** Rewriting a stored document without touching its `orderId` never collides with the unique index. */
  lemma SameOrderIdIsFree(ids: seq<ObjectId>, orders: map<ObjectId, Order>, o: Order)
    requires ValidState(ids, orders) && o.id in orders && o.orderId == orders[o.id].orderId
    ensures !OrderIdTaken(orders, o)
  {
  }

  /** The unique index's error for a second document with the same `orderId`. */
  function DuplicateMessage(orderId: Option<string>): string {
    "E11000 duplicate key error collection: orders index: orderId_1 dup key: { orderId: \"" + JsText(orderId) + "\" }"
  }

  /** What `save` rejects a document with, if anything: validation first, then the unique index. */
  function SaveError(orders: map<ObjectId, Order>, o: Order): (err: Option<string>)
    ensures err.None? <==> SchemaValid(o) && !OrderIdTaken(orders, o)
    ensures !SchemaValid(o) ==> err == Some(ValidationMessage(o))
  {
    if !SchemaValid(o) then Some(ValidationMessage(o))
    else if OrderIdTaken(orders, o) then Some(DuplicateMessage(o.orderId))
    else None
  }

  class Store {
    var ids: seq<ObjectId>
    var orders: map<ObjectId, Order>

    ghost predicate Valid()
      reads this
    {
      ValidState(ids, orders)
    }

    constructor ()
      ensures Valid() && ids == [] && orders == map[]
    {
      ids := [];
      orders := map[];
    }

    /** `Order.findOne(filter)` on this collection. */
    function FindOne(q: Query): (r: Result<Option<ObjectId>, string>)
      reads this
      requires Valid()
      ensures r == Find(ids, orders, q)
    {
      Find(ids, orders, q)
    }

    /** Scans the collection for a document other than `o` with the same `orderId`, as the unique index does. */
    method FindDuplicate(o: Order) returns (dup: bool)
      requires Valid()
      ensures dup <==> OrderIdTaken(orders, o)
    {
      dup := false;
      var i := 0;
      while i < |ids|
        invariant 0 <= i <= |ids|
        invariant dup <==> exists j :: 0 <= j < i && ids[j] != o.id && orders[ids[j]].orderId == o.orderId
      {
        if ids[i] != o.id && orders[ids[i]].orderId == o.orderId {
          dup := true;
        }
        i := i + 1;
      }
      if OrderIdTaken(orders, o) {
        var id :| id in orders && id != o.id && orders[id].orderId == o.orderId;
        var j :| 0 <= j < |ids| && ids[j] == id;
      }
    }

    /**
     * `doc.save()`: validation first, then the unique index; on success the document is stored under its
     * `_id`, replacing an earlier version in place or appended at the end of the natural order.
     */
    method Save(o: Order) returns (err: Option<string>)
      requires Valid() && IsObjectId(o.id)
      modifies this
      ensures Valid()
      ensures err == SaveError(old(orders), o)
      ensures err.None? ==> orders == old(orders)[o.id := o]
      ensures err.None? ==> ids == if o.id in old(orders) then old(ids) else old(ids) + [o.id]
      ensures err.Some? ==> orders == old(orders) && ids == old(ids)
    {
      if !SchemaValid(o) {
        return Some(ValidationMessage(o));
      }
      var dup := FindDuplicate(o);
      if dup {
        return Some(DuplicateMessage(o.orderId));
      }
      StorePreservesValid(ids, orders, o);
      if o.id !in orders {
        ids := ids + [o.id];
      }
      orders := orders[o.id := o];
      err := None;
    }
  }
}
