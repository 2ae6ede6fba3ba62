/** The pure parts of the order-creation form: the backend's DTOs, the
    selection lookups, the seeding of supply quantities from a validation
    response, the submission payload and the `canSubmit` rule. */
module OrderPayload {
  import opened JsText
  import opened SeqUtil
  import opened Quantities
  import opened Calendar

  /** The two order-type labels the form branches on. */
  const PolloLabel: string := "Pedido de Pollo"
  const InsumosLabel: string := "Pedido de Insumos"
  /** Fixed supervisor id sent with every order. */
  const SupervisorId: string := "742cf436-2d88-40bc-a656-191ade65ecf0"
  /** Unit used for a supply item missing from the fetched categories. */
  const DefaultUnit: string := "UND"
  /** Status id of a newly submitted order. */
  const NewOrderStatus: int := 1

  datatype Store = Store(idDepartamento: int, nombreTienda: string)

  datatype OrderType = OrderType(idTipo: int, nombre: string)

  /** A product of the validation response; `cantidad` is optional. */
  datatype Product = Product(
    id: string, name: string, unit: string, currentStock: int, salesUnit: string, cantidad: Option<int>)

  datatype Category = Category(id: string, name: string, products: seq<Product>)

  /** The body of a successful "validate and fetch order" call; `idPedido`
      is None when the backend sends null. */
  datatype ValidateResponse = ValidateResponse(nuevoPedido: bool, idPedido: Option<string>, categorias: seq<Category>)

  datatype Item = Item(codigoArticulo: string, nombreArticulo: string, cantidad: int, unidadMedida: string)

  /** `idPedido` None means the key is absent from the JSON header. */
  datatype Header = Header(
    idPedido: Option<string>, idTienda: string, idTipo: string, fechaRequerida: string,
    idSupervisor: string, totalProductos: nat, idEstadoPedido: int)

  /** An item None is the `undefined` the poultry branch of the mapper yields. */
  datatype Payload = Payload(header: Header, items: seq<Option<Item>>)

  // ---------------------------------------------------------------------
  // Selection lookups of the two comboboxes

  /** `stores.find(s => s.id_departamento.toString() === value) || null`. */
  function FindStore(stores: seq<Store>, value: string): (r: Option<Store>)
    ensures r.None? <==> forall i :: 0 <= i < |stores| ==> IntToText(stores[i].idDepartamento) != value
    ensures r.Some? ==> IntToText(r.value.idDepartamento) == value
    ensures r.Some? ==> exists i :: (0 <= i < |stores| && stores[i] == r.value
      && forall j :: 0 <= j < i ==> IntToText(stores[j].idDepartamento) != value)
  {
    var i := FindIndex((s: Store) => IntToText(s.idDepartamento) == value, stores);
    if i < |stores| then Some(stores[i]) else None
  }

  /** `orderTypes.find(t => t.id_tipo.toString() === value) || null`. */
  function FindOrderType(types: seq<OrderType>, value: string): (r: Option<OrderType>)
    ensures r.None? <==> forall i :: 0 <= i < |types| ==> IntToText(types[i].idTipo) != value
    ensures r.Some? ==> IntToText(r.value.idTipo) == value
    ensures r.Some? ==> exists i :: (0 <= i < |types| && types[i] == r.value
      && forall j :: 0 <= j < i ==> IntToText(types[j].idTipo) != value)
  {
    var i := FindIndex((t: OrderType) => IntToText(t.idTipo) == value, types);
    if i < |types| then Some(types[i]) else None
  }

  // ---------------------------------------------------------------------
  // Seeding the supply quantities from a validation response

  /** `categorias.flatMap(cat => cat.products)`. */
  function AllProducts(cats: seq<Category>): seq<Product> {
    if cats == [] then [] else AllProducts(cats[..|cats| - 1]) + cats[|cats| - 1].products
  }

  /** `prod.cantidad || 0`. */
  function SeedValue(p: Product): int {
    match p.cantidad
    case Some(c) => c
    case None => 0
  }

  /** The record the nested seeding loop builds: each product in turn writes
      its id, so there is at most one entry per product, and the last
      product's id holds that product's seed value. */
  function SeedOf(ps: seq<Product>): (r: Quantities)
    ensures |r| <= |ps|
    ensures ps != [] ==> Entry(ps[|ps| - 1].id, SeedValue(ps[|ps| - 1])) in r
  {
    if ps == [] then []
    else Put(SeedOf(ps[..|ps| - 1]), ps[|ps| - 1].id, SeedValue(ps[|ps| - 1]))
  }

  /** The last product carrying the id `k`, if any. */
  function LastWithId(ps: seq<Product>, k: string): (r: Option<Product>)
    ensures r.None? <==> forall i :: 0 <= i < |ps| ==> ps[i].id != k
    ensures r.Some? ==> r.value.id == k
    ensures r.Some? ==> exists i :: (0 <= i < |ps| && ps[i] == r.value
      && forall j :: i < j < |ps| ==> ps[j].id != k)
  {
    if ps == [] then None
    else if ps[|ps| - 1].id == k then Some(ps[|ps| - 1])
    else LastWithId(ps[..|ps| - 1], k)
  }

  /** The seeded record holds one key per returned product id, whose value
      is the `cantidad` (or 0) of the last product with that id: a later
      duplicate overwrites an earlier one. */
  lemma {:induction false} SeedLookup(ps: seq<Product>, k: string)
    ensures Lookup(SeedOf(ps), k) == match LastWithId(ps, k)
      case Some(p) => Some(SeedValue(p))
      case None => None
  {
    if ps != [] {
      var init, last := ps[..|ps| - 1], ps[|ps| - 1];
      SeedLookup(init, k);
      PutLookup(SeedOf(init), last.id, SeedValue(last), k);
    }
  }

  /** The seeded record never holds an id twice. */
  lemma {:induction false} SeedUnique(ps: seq<Product>)
    ensures UniqueKeys(SeedOf(ps))
  {
    if ps != [] {
      var init, last := ps[..|ps| - 1], ps[|ps| - 1];
      SeedUnique(init);
      PutUnique(SeedOf(init), last.id, SeedValue(last));
    }
  }

  /** Seeding the next product of a category is one more write. */
  lemma SeedStep(done: seq<Product>, products: seq<Product>, j: nat)
    requires j < |products|
    ensures SeedOf(done + products[..j + 1])
      == Put(SeedOf(done + products[..j]), products[j].id, SeedValue(products[j]))
  {
    var ps := done + products[..j];
    assert done + products[..j + 1] == ps + [products[j]];
    assert (ps + [products[j]])[..|ps|] == ps;
  }

  /** The products of one more category come after those before it. */
  lemma AllProductsSnoc(cats: seq<Category>, i: nat)
    requires i < |cats|
    ensures AllProducts(cats[..i + 1]) == AllProducts(cats[..i]) + cats[i].products
  {
    assert cats[..i + 1][..i] == cats[..i];
  }

  /** The `forEach` over categories and products in the validation handler. */
  method SeedSupplyQuantities(cats: seq<Category>) returns (q: Quantities)
    ensures q == SeedOf(AllProducts(cats))
    ensures UniqueKeys(q)
  {
    q := [];
    var i := 0;
    while i < |cats|
      invariant 0 <= i <= |cats|
      invariant q == SeedOf(AllProducts(cats[..i]))
    {
      var products := cats[i].products;
      ghost var done := AllProducts(cats[..i]);
      var j := 0;
      assert done + products[..0] == done;
      while j < |products|
        invariant 0 <= j <= |products|
        invariant q == SeedOf(done + products[..j])
      {
        var prod := products[j];
        SeedStep(done, products, j);
        q := Put(q, prod.id, SeedValue(prod));
        j := j + 1;
      }
      assert products[..j] == products;
      AllProductsSnoc(cats, i);
      i := i + 1;
    }
    assert cats[..i] == cats;
    SeedUnique(AllProducts(cats));
  }

  /** The `forEach` that folds every fetched category. */
  method CollapsedCategories(cats: seq<Category>) returns (collapsed: map<string, bool>)
    ensures collapsed.Keys == set c | c in cats :: c.id
    ensures forall id :: id in collapsed ==> !collapsed[id]
  {
    collapsed := map[];
    var i := 0;
    while i < |cats|
      invariant 0 <= i <= |cats|
      invariant collapsed.Keys == set c | c in cats[..i] :: c.id
      invariant forall id :: id in collapsed ==> !collapsed[id]
    {
      assert cats[..i + 1] == cats[..i] + [cats[i]];
      collapsed := collapsed[cats[i].id := false];
      i := i + 1;
    }
    assert cats[..i] == cats;
  }

  // ---------------------------------------------------------------------
  // The submission payload

  /** `products.find(p => p.id === id)`. */
  function FindProduct(ps: seq<Product>, id: string): (r: Option<Product>)
    ensures r.None? <==> forall i :: 0 <= i < |ps| ==> ps[i].id != id
    ensures r.Some? ==> r.value.id == id
    ensures r.Some? ==> exists i :: (0 <= i < |ps| && ps[i] == r.value
      && forall j :: 0 <= j < i ==> ps[j].id != id)
  {
    if ps == [] then None
    else if ps[0].id == id then Some(ps[0])
    else
      var r := FindProduct(ps[1..], id);
      assert r.Some? ==> exists i :: (1 <= i < |ps| && ps[i] == r.value
        && forall j :: 1 <= j < i ==> ps[j].id != id) by {
        if r.Some? {
          var k :| 0 <= k < |ps[1..]| && ps[1..][k] == r.value
            && forall j :: 0 <= j < k ==> ps[1..][j].id != id;
          assert ps[k + 1] == r.value;
        }
      }
      r
  }

  /** `supplyCategories?.categorias.flatMap(cat => cat.products)`; with no
      response the lookup finds nothing, as an empty list does. */
  function FetchedProducts(supply: Option<ValidateResponse>): seq<Product> {
    match supply
    case Some(resp) => AllProducts(resp.categorias)
    case None => []
  }

  /** The item mapper: nothing for a poultry order, otherwise the name and
      sales unit of the first product with the id, or the id and "UND". */
  function ItemFor(isPollo: bool, products: seq<Product>, e: Entry): (r: Option<Item>)
    ensures r.None? <==> isPollo
    ensures r.Some? ==> r.value.codigoArticulo == e.key && r.value.cantidad == e.qty
  {
    if isPollo then None
    else match FindProduct(products, e.key)
      case Some(p) => Some(Item(e.key, p.name, e.qty, p.salesUnit))
      case None => Some(Item(e.key, e.key, e.qty, DefaultUnit))
  }

  /** The `.map` over the kept entries. */
  function Items(isPollo: bool, products: seq<Product>, kept: Quantities): (r: seq<Option<Item>>)
    ensures |r| == |kept| && forall i :: 0 <= i < |kept| ==> r[i] == ItemFor(isPollo, products, kept[i])
  {
    if kept == [] then [] else [ItemFor(isPollo, products, kept[0])] + Items(isPollo, products, kept[1..])
  }

  /** JavaScript truthiness of the optional draft id. */
  predicate IsTruthy(s: Option<string>) {
    s.Some? && s.value != ""
  }

  /** The `pedidoCompleto` object posted to the create-order endpoint: never
      more items than the selected record has entries, a product count equal
      to the item count, the fixed supervisor and a new-order status. */
  function BuildPayload(
    pedidoId: Option<string>, store: Store, orderType: OrderType, date: Date,
    chicken: Quantities, supply: Quantities, supplyCategories: Option<ValidateResponse>): (r: Payload)
    ensures |r.items| <= |if orderType.nombre == PolloLabel then chicken else supply|
    ensures r.header.totalProductos == |r.items|
    ensures r.header.idSupervisor == SupervisorId && r.header.idEstadoPedido == NewOrderStatus
  {
    var isPollo := orderType.nombre == PolloLabel;
    var kept := Positive(if isPollo then chicken else supply);
    var items := Items(isPollo, FetchedProducts(supplyCategories), kept);
    Payload(
      Header(
        if IsTruthy(pedidoId) then pedidoId else None,
        IntToText(store.idDepartamento), IntToText(orderType.idTipo), FormatYmd(date),
        SupervisorId, |items|, NewOrderStatus),
      items)
  }

  /** The items are the positive entries of the record the label selects
      (poultry record for "Pedido de Pollo", supply record otherwise), one
      for one and in order; `total_productos` counts them. */
  lemma PayloadItems(
    pedidoId: Option<string>, store: Store, orderType: OrderType, date: Date,
    chicken: Quantities, supply: Quantities, supplyCategories: Option<ValidateResponse>)
    ensures var p := BuildPayload(pedidoId, store, orderType, date, chicken, supply, supplyCategories);
      var isPollo := orderType.nombre == PolloLabel;
      var source := if isPollo then chicken else supply;
      && |p.items| == |Positive(source)| == p.header.totalProductos
      && (forall e :: e in Positive(source) <==> e in source && e.qty > 0)
      && IsSubsequence(Positive(source), source)
      && (isPollo ==> forall i :: 0 <= i < |p.items| ==> p.items[i].None?)
      && (!isPollo ==> forall i :: 0 <= i < |p.items| ==>
            p.items[i].Some?
            && p.items[i].value.codigoArticulo == Positive(source)[i].key
            && p.items[i].value.cantidad == Positive(source)[i].qty > 0)
  {
    PositiveEntries(if orderType.nombre == PolloLabel then chicken else supply);
  }

  /** A supply item takes name and unit from the first fetched product with
      its id; without one, the id and "UND" are used. */
  lemma SupplyItemNames(
    pedidoId: Option<string>, store: Store, orderType: OrderType, date: Date,
    chicken: Quantities, supply: Quantities, supplyCategories: Option<ValidateResponse>, i: nat)
    requires orderType.nombre != PolloLabel
    requires i < |Positive(supply)|
    ensures var p := BuildPayload(pedidoId, store, orderType, date, chicken, supply, supplyCategories);
      var id := Positive(supply)[i].key;
      var products := FetchedProducts(supplyCategories);
      && i < |p.items| && p.items[i].Some?
      && ((exists j :: 0 <= j < |products| && products[j].id == id) ==>
            (exists j :: (0 <= j < |products| && products[j].id == id
              && (forall k :: 0 <= k < j ==> products[k].id != id)
              && p.items[i].value.nombreArticulo == products[j].name
              && p.items[i].value.unidadMedida == products[j].salesUnit)))
      && ((forall j :: 0 <= j < |products| ==> products[j].id != id) ==>
            p.items[i].value.nombreArticulo == id && p.items[i].value.unidadMedida == DefaultUnit)
  {
    var p := BuildPayload(pedidoId, store, orderType, date, chicken, supply, supplyCategories);
    var e := Positive(supply)[i];
    var products := FetchedProducts(supplyCategories);
    assert p.items[i] == ItemFor(false, products, e);
  }

  /** `id_pedido` is sent exactly when the draft id is truthy (present and
      non-empty); the date goes out as "yyyy-MM-dd" and the status is 1. */
  lemma PayloadHeader(
    pedidoId: Option<string>, store: Store, orderType: OrderType, date: Date,
    chicken: Quantities, supply: Quantities, supplyCategories: Option<ValidateResponse>)
    ensures var h := BuildPayload(pedidoId, store, orderType, date, chicken, supply, supplyCategories).header;
      && (h.idPedido.Some? <==> pedidoId.Some? && pedidoId.value != "")
      && (h.idPedido.Some? ==> h.idPedido == pedidoId)
      && h.idTienda == IntToText(store.idDepartamento)
      && h.idTipo == IntToText(orderType.idTipo)
      && h.idEstadoPedido == 1
      && h.idSupervisor == SupervisorId
      && (IsValidDate(date) && date.year < 10000 ==>
            |h.fechaRequerida| == 10 && h.fechaRequerida[4] == '-' && h.fechaRequerida[7] == '-'
            && AllDigits(h.fechaRequerida[..4], false) && AllDigits(h.fechaRequerida[5..7], false)
            && AllDigits(h.fechaRequerida[8..], false)
            && RunValue(h.fechaRequerida[..4], false) == date.year
            && RunValue(h.fechaRequerida[5..7], false) == date.month
            && RunValue(h.fechaRequerida[8..], false) == date.day)
  {
    if IsValidDate(date) && date.year < 10000 {
      FormatYmdShape(date);
    }
  }

  // ---------------------------------------------------------------------
  // The submit button's enabling rule

  /** `canSubmit`: the table is shown and the record the label selects holds
      a positive quantity. */
  predicate CanSubmitState(showTable: bool, orderType: Option<OrderType>, chicken: Quantities, supply: Quantities)
    ensures CanSubmitState(showTable, orderType, chicken, supply) ==>
      && showTable && orderType.Some?
      && (orderType.value.nombre == PolloLabel || orderType.value.nombre == InsumosLabel)
      && (chicken != [] || supply != [])
  {
    && showTable
    && orderType.Some?
    && ((orderType.value.nombre == PolloLabel && HasPositive(chicken))
        || (orderType.value.nombre == InsumosLabel && HasPositive(supply)))
  }

  /** Submission is enabled exactly when the table is shown, the label is one
      of the two known ones, and the payload it would post has an item. */
  lemma CanSubmitIffItems(
    showTable: bool, orderType: Option<OrderType>, chicken: Quantities, supply: Quantities,
    pedidoId: Option<string>, store: Store, date: Date, supplyCategories: Option<ValidateResponse>)
    ensures CanSubmitState(showTable, orderType, chicken, supply) <==>
      && showTable && orderType.Some?
      && (orderType.value.nombre == PolloLabel || orderType.value.nombre == InsumosLabel)
      && BuildPayload(pedidoId, store, orderType.value, date, chicken, supply, supplyCategories).items != []
  {
    PositiveEntries(chicken);
    PositiveEntries(supply);
  }

  /** Any other label never enables submission. */
  lemma UnknownLabelNeverSubmits(showTable: bool, orderType: Option<OrderType>, chicken: Quantities, supply: Quantities)
    requires orderType.Some? && orderType.value.nombre != PolloLabel && orderType.value.nombre != InsumosLabel
    ensures !CanSubmitState(showTable, orderType, chicken, supply)
  {
  }
}
