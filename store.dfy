/**
 * The document store: the menu-item, order and user collections. Nothing in the core ever
 * removes a document (menu items are only soft-deleted), so each collection is kept as a
 * sequence in insertion order and a document's id is its position.
 */
module Db {
  import opened MenuModel
  import opened OrderModel
  import opened UserModel
  import Pricing
  import opened Base

  class Store {
    var menu: seq<MenuItem>
    var orders: seq<Order>
    var users: seq<User>

    /** Every stored document satisfies its schema, and every order its pricing invariants. */
    ghost predicate Valid()
      reads this
    {
      ValidMenu(menu) && ValidOrders(orders) && ValidUsers(users)
    }

    constructor ()
      ensures Valid() && menu == [] && orders == [] && users == []
    {
      menu, orders, users := [], [], [];
    }
  }

  ghost predicate ValidMenu(menu: seq<MenuItem>) {
    forall i :: 0 <= i < |menu| ==> ValidMenuItem(menu[i])
  }

  ghost predicate ValidOrders(orders: seq<Order>) {
    forall i :: 0 <= i < |orders| ==> StoredOrder(orders[i])
  }

  /** Adding or replacing a valid item keeps the menu valid. */
  lemma ValidMenuUpdate(menu: seq<MenuItem>, i: nat, m: MenuItem)
    requires ValidMenu(menu) && ValidMenuItem(m) && i <= |menu|
    ensures ValidMenu(if i == |menu| then menu + [m] else menu[i := m])
  {
  }

  /** Adding or replacing a stored order keeps the collection valid. */
  lemma ValidOrdersUpdate(orders: seq<Order>, i: nat, o: Order)
    requires ValidOrders(orders) && StoredOrder(o) && i <= |orders|
    ensures ValidOrders(if i == |orders| then orders + [o] else orders[i := o])
  {
  }

  /** Saving the document just appended again replaces it in place. */
  lemma ResaveLast(orders: seq<Order>, saved: Order, resaved: Order)
    ensures (orders + [saved])[|orders| := resaved] == orders + [resaved]
  {
    assert forall i :: 0 <= i < |orders| ==> (orders + [saved])[|orders| := resaved][i] == orders[i];
  }

  /** Recording a payment intent on a stored order keeps it stored. */
  lemma StoredWithIntent(o: Order, intentId: string)
    requires StoredOrder(o)
    ensures StoredOrder(o.(paymentIntentId := Some(intentId)))
  {
    assert o.(paymentIntentId := Some(intentId)).items == o.items;
  }

  /** A persisted order: schema-valid, numbered, and priced consistently. */
  ghost predicate StoredOrder(o: Order) {
    ValidOrder(o) && o.orderNumber != "" && Pricing.ConsistentTotals(o)
  }
}
