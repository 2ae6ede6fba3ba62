/** The pending-orders manager: a stock check that splits an order's products,
    the two tabs that split the orders by kind, and the validate and confirm
    transitions over an in-memory order list. */
module PendingOrders {
  import opened JsText
  import opened SeqUtil
  import opened Calendar

  datatype OrderProduct = OrderProduct(
    name: string,
    requestedQuantity: int,
    availableStock: int,
    unit: Option<string>)

  /** The `type` field: "pollo" or "insumos". */
  datatype OrderKind = Pollo | Insumos

  /** The `status` field: "pending", "validated" or "confirmed". */
  datatype Status = Pending | Validated | Confirmed

  datatype Order = Order(
    id: string,
    kind: OrderKind,
    date: Date,
    warehouse: Option<string>,
    route: Option<string>,
    store: string,
    products: seq<OrderProduct>,
    status: Status)

  datatype ValidationSummary = ValidationSummary(
    insufficient: seq<OrderProduct>,
    sufficient: seq<OrderProduct>)

  /** More is requested than the warehouse holds. */
  predicate IsShort(p: OrderProduct) {
    p.requestedQuantity > p.availableStock
  }

  predicate IsCovered(p: OrderProduct) {
    p.requestedQuantity <= p.availableStock
  }

  /** The "Faltante" figure shown for a short product. */
  function Shortfall(p: OrderProduct): int {
    p.requestedQuantity - p.availableStock
  }

  /** `getValidationSummary`: every shortfall it reports is positive, and
      every product it calls sufficient can be delivered in full. */
  function GetValidationSummary(order: Order): (s: ValidationSummary)
    ensures forall p :: p in s.insufficient ==> Shortfall(p) > 0
    ensures forall p :: p in s.sufficient ==> p.availableStock >= p.requestedQuantity
  {
    ValidationSummary(Filter(IsShort, order.products), Filter(IsCovered, order.products))
  }

  /** The two lists split the products: each product lands in exactly one of
      them (as many times as it occurs), each keeps the order's sequence, and
      the lengths add up to the product count. */
  lemma SummaryPartition(order: Order)
    ensures var s := GetValidationSummary(order);
      && multiset(s.insufficient) + multiset(s.sufficient) == multiset(order.products)
      && |s.insufficient| + |s.sufficient| == |order.products|
      && (forall p :: p in s.insufficient <==> p in order.products && p.requestedQuantity > p.availableStock)
      && (forall p :: p in s.sufficient <==> p in order.products && p.requestedQuantity <= p.availableStock)
      && IsSubsequence(s.insufficient, order.products)
      && IsSubsequence(s.sufficient, order.products)
  {
    FilterPartition(IsShort, IsCovered, order.products);
    FilterMembers(IsShort, order.products);
    FilterMembers(IsCovered, order.products);
  }

  /** `getStatusText`. */
  function StatusText(status: Status): (r: string)
    ensures |r| >= 8 && (r[0] == 'P' <==> status == Pending) && (r[0] == 'C' <==> status == Confirmed)
  {
    match status
    case Pending => "Pendiente"
    case Validated => "Validado"
    case Confirmed => "Confirmado"
  }

  /** `getStatusColor`. */
  function StatusColor(status: Status): (r: string)
    ensures |r| > 3 && r[..3] == "bg-" && (r[3] == 'y' <==> status == Pending)
  {
    match status
    case Pending => "bg-yellow-100 text-yellow-800"
    case Validated => "bg-blue-100 text-blue-800"
    case Confirmed => "bg-green-100 text-green-800"
  }

  /** Each status has its own label and its own badge colour. */
  lemma StatusBadgesDistinct(a: Status, b: Status)
    ensures StatusText(a) == StatusText(b) <==> a == b
    ensures StatusColor(a) == StatusColor(b) <==> a == b
  {
    if a != b {
      assert StatusText(a)[0] != StatusText(b)[0];
      assert StatusColor(a)[3] != StatusColor(b)[3];
    }
  }

  /** Both action buttons are enabled unless the order is confirmed. */
  predicate ActionsEnabled(order: Order)
    ensures ActionsEnabled(order) <==> order.status == Pending || order.status == Validated
  {
    order.status != Confirmed
  }

  predicate IsChicken(order: Order) {
    order.kind == Pollo
  }

  predicate IsSupplies(order: Order) {
    order.kind == Insumos
  }

  /** `chickenOrders`. */
  function ChickenOrders(orders: seq<Order>): (r: seq<Order>)
    ensures |r| <= |orders|
    ensures forall i :: 0 <= i < |r| ==> r[i].kind == Pollo
  {
    Filter(IsChicken, orders)
  }

  /** `suppliesOrders`. */
  function SuppliesOrders(orders: seq<Order>): (r: seq<Order>)
    ensures |r| <= |orders|
    ensures forall i :: 0 <= i < |r| ==> r[i].kind == Insumos
  {
    Filter(IsSupplies, orders)
  }

  /** The two tabs split the list by kind: every order shows in exactly one
      tab, in list order, and the tab counts add up to the list length. */
  lemma TabsPartition(orders: seq<Order>)
    ensures multiset(ChickenOrders(orders)) + multiset(SuppliesOrders(orders)) == multiset(orders)
    ensures |ChickenOrders(orders)| + |SuppliesOrders(orders)| == |orders|
    ensures forall o :: o in ChickenOrders(orders) <==> o in orders && o.kind == Pollo
    ensures forall o :: o in SuppliesOrders(orders) <==> o in orders && o.kind == Insumos
    ensures IsSubsequence(ChickenOrders(orders), orders) && IsSubsequence(SuppliesOrders(orders), orders)
  {
    FilterPartition(IsChicken, IsSupplies, orders);
    FilterMembers(IsChicken, orders);
    FilterMembers(IsSupplies, orders);
  }

  /** `orders.map(o => o.id === id ? { ...o, status } : o)`: the orders with
      that id get the new status and nothing else changes. */
  function SetStatusWhere(orders: seq<Order>, id: string, status: Status): (r: seq<Order>)
    ensures |r| == |orders|
    ensures forall i :: 0 <= i < |r| ==>
      r[i] == if orders[i].id == id then orders[i].(status := status) else orders[i]
  {
    if orders == [] then []
    else
      var head := if orders[0].id == id then orders[0].(status := status) else orders[0];
      [head] + SetStatusWhere(orders[1..], id, status)
  }

  /** Setting the same status twice is the same as setting it once. */
  lemma SetStatusIdempotent(orders: seq<Order>, id: string, status: Status)
    ensures SetStatusWhere(SetStatusWhere(orders, id, status), id, status) == SetStatusWhere(orders, id, status)
  {
  }

  /** A transition never moves an order between tabs: the tab built after it
      is the tab built before it with the same transition applied. */
  lemma SetStatusKeepsTabs(orders: seq<Order>, id: string, status: Status)
    ensures ChickenOrders(SetStatusWhere(orders, id, status)) == SetStatusWhere(ChickenOrders(orders), id, status)
    ensures SuppliesOrders(SetStatusWhere(orders, id, status)) == SetStatusWhere(SuppliesOrders(orders), id, status)
  {
    SetStatusKeepsFilter(IsChicken, orders, id, status);
    SetStatusKeepsFilter(IsSupplies, orders, id, status);
  }

  lemma {:induction false} SetStatusKeepsFilter(f: Order -> bool, orders: seq<Order>, id: string, status: Status)
    requires forall o: Order, s: Status :: f(o.(status := s)) == f(o)
    ensures Filter(f, SetStatusWhere(orders, id, status)) == SetStatusWhere(Filter(f, orders), id, status)
  {
    if orders != [] {
      SetStatusKeepsFilter(f, orders[1..], id, status);
      var r := SetStatusWhere(orders, id, status);
      var tail := SetStatusWhere(orders[1..], id, status);
      assert r == [r[0]] + tail;
      assert f(r[0]) == f(orders[0]);
      var kept := Filter(f, orders[1..]);
      if f(orders[0]) {
        assert Filter(f, orders) == [orders[0]] + kept;
        assert ([orders[0]] + kept)[1..] == kept;
      } else {
        assert Filter(f, orders) == kept;
      }
    }
  }

  /** After confirming, every order with that id has both actions disabled,
      and every other order keeps its state. */
  lemma ConfirmLocksActions(orders: seq<Order>, id: string)
    ensures forall o :: o in SetStatusWhere(orders, id, Confirmed) && o.id == id ==> !ActionsEnabled(o)
    ensures forall i :: 0 <= i < |orders| && orders[i].id != id ==>
      ActionsEnabled(SetStatusWhere(orders, id, Confirmed)[i]) == ActionsEnabled(orders[i])
  {
  }

  const MockOrders: seq<Order> := [
    Order("PO-001", Pollo, Date(2024, 12, 10), Some("Bodega Central Guatemala"), Some("Ruta Norte"),
      "Tienda Palencia", [
        OrderProduct("Pollo Grande Tradicional", 50, 45, None),
        OrderProduct("Pollo Grande Picante", 30, 30, None),
        OrderProduct("Pollo Est\U{e1}ndar Tradicional", 40, 50, None),
        OrderProduct("Molleja", 20, 15, None),
        OrderProduct("Alitas", 25, 25, None)],
      Pending),
    Order("PO-002", Pollo, Date(2024, 12, 11), Some("Bodega Zona 12"), Some("Ruta Sur"),
      "Tienda Villa Nueva", [
        OrderProduct("Pollo Est\U{e1}ndar Picante", 60, 40, None),
        OrderProduct("Pechuga sin Ala", 35, 35, None),
        OrderProduct("H\U{ed}gado", 15, 10, None)],
      Pending),
    Order("PI-001", Insumos, Date(2024, 12, 9), None, None,
      "Tienda Mixco", [
        OrderProduct("Salsa de Tomate", 20, 15, Some("Litros")),
        OrderProduct("Aderezo Ranch", 10, 8, Some("Litros")),
        OrderProduct("Jab\U{f3}n L\U{ed}quido", 15, 10, Some("Litros")),
        OrderProduct("Cloro", 25, 25, Some("Litros")),
        OrderProduct("Papel de Ba\U{f1}o", 30, 25, Some("Paquetes")),
        OrderProduct("Servilletas", 40, 30, Some("Paquetes"))],
      Pending),
    Order("PI-002", Insumos, Date(2024, 12, 10), None, None,
      "Tienda Antigua Guatemala", [
        OrderProduct("Salsa BBQ", 12, 12, Some("Litros")),
        OrderProduct("Guantes de L\U{e1}tex", 8, 4, Some("Cajas")),
        OrderProduct("Aceite de Cocina", 50, 40, Some("Litros"))],
      Pending)
  ]

  /** The mock list opens with two orders on each tab, all pending. */
  lemma MockTabs()
    ensures |ChickenOrders(MockOrders)| == 2 && |SuppliesOrders(MockOrders)| == 2
    ensures forall o :: o in MockOrders ==> o.status == Pending && ActionsEnabled(o)
  {
    assert MockOrders == [MockOrders[0]] + MockOrders[1..];
    assert MockOrders[1..] == [MockOrders[1]] + MockOrders[2..];
    assert MockOrders[2..] == [MockOrders[2]] + MockOrders[3..];
    assert MockOrders[3..] == [MockOrders[3]] + MockOrders[4..];
  }

  /** The manager's state and its handlers. */
  class PendingOrdersView {
    var orders: seq<Order>
    var selectedOrder: Option<Order>
    var showValidationModal: bool
    var showConfirmModal: bool
    var expandedOrders: map<string, bool>

    constructor()
      ensures orders == MockOrders && selectedOrder == None
      ensures !showValidationModal && !showConfirmModal && expandedOrders == map[]
    {
      orders := MockOrders;
      selectedOrder := None;
      showValidationModal, showConfirmModal := false, false;
      expandedOrders := map[];
    }

    /** "Validar Stock": remembers the order and opens the stock check. */
    method HandleValidate(order: Order)
      modifies this`selectedOrder, this`showValidationModal
      ensures selectedOrder == Some(order) && showValidationModal
    {
      selectedOrder := Some(order);
      showValidationModal := true;
    }

    /** "Confirmar Pedido": remembers the order and opens the confirmation. */
    method HandleConfirm(order: Order)
      modifies this`selectedOrder, this`showConfirmModal
      ensures selectedOrder == Some(order) && showConfirmModal
    {
      selectedOrder := Some(order);
      showConfirmModal := true;
    }

    /** `confirmValidation`: with an order selected, marks every order with
        its id as validated, closes the stock check and clears the
        selection; with none selected, does nothing. */
    method ConfirmValidation()
      modifies this`orders, this`showValidationModal, this`selectedOrder
      ensures old(selectedOrder).None? ==>
        orders == old(orders) && showValidationModal == old(showValidationModal) && selectedOrder == None
      ensures old(selectedOrder).Some? ==>
        && orders == SetStatusWhere(old(orders), old(selectedOrder).value.id, Validated)
        && !showValidationModal && selectedOrder == None
    {
      if selectedOrder.Some? {
        orders := SetStatusWhere(orders, selectedOrder.value.id, Validated);
        showValidationModal := false;
        selectedOrder := None;
      }
    }

    /** `confirmOrder`: the same transition to confirmed, closing the
        confirmation dialog. */
    method ConfirmOrder()
      modifies this`orders, this`showConfirmModal, this`selectedOrder
      ensures old(selectedOrder).None? ==>
        orders == old(orders) && showConfirmModal == old(showConfirmModal) && selectedOrder == None
      ensures old(selectedOrder).Some? ==>
        && orders == SetStatusWhere(old(orders), old(selectedOrder).value.id, Confirmed)
        && !showConfirmModal && selectedOrder == None
    {
      if selectedOrder.Some? {
        orders := SetStatusWhere(orders, selectedOrder.value.id, Confirmed);
        showConfirmModal := false;
        selectedOrder := None;
      }
    }

    /** The stock check's "Cancelar": closes it and keeps the selection. */
    method CancelValidation()
      modifies this`showValidationModal
      ensures !showValidationModal
    {
      showValidationModal := false;
    }

    /** The confirmation's "Cancelar": closes it and keeps the selection. */
    method CancelConfirm()
      modifies this`showConfirmModal
      ensures !showConfirmModal
    {
      showConfirmModal := false;
    }

    /** `toggleOrder`: flips one order's panel (an absent one reads as
        folded) and leaves the others alone. */
    method ToggleOrder(orderId: string)
      modifies this`expandedOrders
      ensures orderId in expandedOrders
      ensures expandedOrders[orderId] == !(orderId in old(expandedOrders) && old(expandedOrders)[orderId])
      ensures forall id :: id != orderId ==>
        (id in expandedOrders <==> id in old(expandedOrders))
        && (id in expandedOrders ==> expandedOrders[id] == old(expandedOrders)[id])
    {
      var wasOpen := orderId in expandedOrders && expandedOrders[orderId];
      expandedOrders := expandedOrders[orderId := !wasOpen];
    }
  }

  /** Validating PO-001 from a fresh view marks only PO-001, which then
      still shows its actions; confirming it afterwards locks them. */
  method ValidateThenConfirmScenario() returns (afterValidate: seq<Order>, afterConfirm: seq<Order>)
    ensures |afterValidate| == 4 && afterValidate[0].status == Validated && ActionsEnabled(afterValidate[0])
    ensures afterValidate[1..] == MockOrders[1..]
    ensures |afterConfirm| == 4 && afterConfirm[0].status == Confirmed && !ActionsEnabled(afterConfirm[0])
    ensures afterConfirm[1..] == MockOrders[1..]
  {
    var view := new PendingOrdersView();
    view.HandleValidate(MockOrders[0]);
    view.ConfirmValidation();
    afterValidate := view.orders;
    view.HandleConfirm(afterValidate[0]);
    view.ConfirmOrder();
    afterConfirm := view.orders;
  }
}
