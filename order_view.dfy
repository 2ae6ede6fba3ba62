/** The order-creation form's state and its event handlers. Network calls are
    replaced by their outcomes, passed in as parameters; `alert` texts are
    returned. */
module OrderView {
  import opened JsText
  import opened Quantities
  import opened Calendar
  import opened OrderPayload

  /** A backend call that resolved with a body or rejected with a message. */
  datatype Outcome<T> = Ok(value: T) | Err(message: string)

  datatype CreateResponse = CreateResponse(idPedido: Option<string>)

  /** What `fetchInsumos` returns: `undefined` when a selection is missing,
      the fetched categories, or `null` after an alert. */
  datatype FetchResult = Skipped | Fetched(categorias: seq<Category>) | Failed(alert: string)

  const ValidateAlertPrefix: string := "Error al validar: "
  const SubmitAlertPrefix: string := "Error al enviar pedido:  "

  class OrderView {
    var stores: seq<Store>
    var orderTypes: seq<OrderType>
    var selectedStore: Option<Store>
    var selectedOrderType: Option<OrderType>
    var orderDate: Option<Date>
    var showTable: bool
    var chickenQuantities: Quantities
    var supplyQuantities: Quantities
    var showSuccessModal: bool
    var expandedCategories: map<string, bool>
    var supplyCategories: Option<ValidateResponse>
    var pedidoId: Option<string>
    var loading: bool

    /** Both records are well formed, and the table is only shown once a
        store and an order type are selected. */
    ghost predicate Valid()
      reads this
    {
      && UniqueKeys(chickenQuantities)
      && UniqueKeys(supplyQuantities)
      && (showTable ==> selectedStore.Some? && selectedOrderType.Some?)
    }

    /** `canValidate`: store, order type and date all selected. */
    predicate CanValidate()
      reads this
    {
      selectedStore.Some? && selectedOrderType.Some? && orderDate.Some?
    }

    /** `canSubmit`: it does not look at the date, but in a reachable state
        it implies that a store and an order type are selected. */
    predicate CanSubmit()
      reads this
      ensures Valid() && CanSubmit() ==> selectedStore.Some? && selectedOrderType.Some? && showTable
    {
      CanSubmitState(showTable, selectedOrderType, chickenQuantities, supplyQuantities)
    }

    constructor()
      ensures Valid()
      ensures stores == [] && orderTypes == []
      ensures selectedStore == None && selectedOrderType == None && orderDate == None
      ensures !showTable && chickenQuantities == [] && supplyQuantities == []
      ensures !showSuccessModal && expandedCategories == map[]
      ensures supplyCategories == None && pedidoId == None && !loading
    {
      stores, orderTypes := [], [];
      selectedStore, selectedOrderType, orderDate := None, None, None;
      showTable, chickenQuantities, supplyQuantities := false, [], [];
      showSuccessModal, expandedCategories := false, map[];
      supplyCategories, pedidoId, loading := None, None, false;
    }

    /** The store list arriving from the mount effect. */
    method LoadStores(data: seq<Store>)
      requires Valid()
      modifies this`stores
      ensures Valid()
      ensures stores == data
    {
      stores := data;
    }

    /** The order-type list arriving from the mount effect. */
    method LoadOrderTypes(data: seq<OrderType>)
      requires Valid()
      modifies this`orderTypes
      ensures Valid()
      ensures orderTypes == data
    {
      orderTypes := data;
    }

    /** The store combobox: selects the first store whose id text matches
        and hides the table; the quantities are kept. */
    method SelectStore(value: string)
      requires Valid()
      modifies this`selectedStore, this`showTable
      ensures Valid()
      ensures selectedStore == FindStore(stores, value) && !showTable
    {
      selectedStore := FindStore(stores, value);
      showTable := false;
    }

    /** The order-type combobox: selects the first type whose id text
        matches, hides the table and empties both records. */
    method SelectOrderType(value: string)
      requires Valid()
      modifies this`selectedOrderType, this`showTable, this`chickenQuantities, this`supplyQuantities
      ensures Valid()
      ensures selectedOrderType == FindOrderType(orderTypes, value) && !showTable
      ensures chickenQuantities == [] && supplyQuantities == []
    {
      selectedOrderType := FindOrderType(orderTypes, value);
      showTable := false;
      chickenQuantities, supplyQuantities := [], [];
    }

    /** The calendar's `onSelect`: only the date changes; a shown table stays
        shown, even when the date is cleared. */
    method SelectDate(date: Option<Date>)
      requires Valid()
      modifies this`orderDate
      ensures Valid()
      ensures orderDate == date
    {
      orderDate := date;
    }

    /** `handleChickenQuantityChange`: writes `parseInt(value) || 0` under
        the product name and leaves every other name as it was. */
    method ChangeChickenQuantity(product: string, value: string)
      requires Valid()
      modifies this`chickenQuantities
      ensures Valid()
      ensures chickenQuantities == Put(old(chickenQuantities), product, ParseQuantity(value))
      ensures Lookup(chickenQuantities, product) == Some(ParseQuantity(value))
      ensures forall k :: k != product ==> Lookup(chickenQuantities, k) == Lookup(old(chickenQuantities), k)
    {
      var q := ParseQuantity(value);
      PutUnique(chickenQuantities, product, q);
      forall k {
        PutLookup(chickenQuantities, product, q, k);
      }
      chickenQuantities := Put(chickenQuantities, product, q);
    }

    /** `handleSupplyQuantityChange`: the same, on the supply record keyed by
        product id. */
    method ChangeSupplyQuantity(productId: string, value: string)
      requires Valid()
      modifies this`supplyQuantities
      ensures Valid()
      ensures supplyQuantities == Put(old(supplyQuantities), productId, ParseQuantity(value))
      ensures Lookup(supplyQuantities, productId) == Some(ParseQuantity(value))
      ensures forall k :: k != productId ==> Lookup(supplyQuantities, k) == Lookup(old(supplyQuantities), k)
    {
      var q := ParseQuantity(value);
      PutUnique(supplyQuantities, productId, q);
      forall k {
        PutLookup(supplyQuantities, productId, q, k);
      }
      supplyQuantities := Put(supplyQuantities, productId, q);
    }

    /** `fetchInsumos`, with `response` standing for what the validate call
        would resolve to. `loading` is raised first and stays raised when a
        selection is missing; on success the draft id, the categories and the
        seeded supply record are stored. */
    method FetchInsumos(response: Outcome<ValidateResponse>) returns (result: FetchResult)
      requires Valid()
      modifies this`loading, this`pedidoId, this`supplyCategories, this`supplyQuantities
      ensures Valid()
      ensures !CanValidate() ==>
        && result == Skipped && loading
        && pedidoId == old(pedidoId) && supplyCategories == old(supplyCategories)
        && supplyQuantities == old(supplyQuantities)
      ensures CanValidate() && response.Ok? ==>
        && result == Fetched(response.value.categorias) && !loading
        && pedidoId == response.value.idPedido && supplyCategories == Some(response.value)
        && supplyQuantities == SeedOf(AllProducts(response.value.categorias))
      ensures CanValidate() && response.Err? ==>
        && result == Failed(ValidateAlertPrefix + response.message) && !loading
        && pedidoId == old(pedidoId) && supplyCategories == old(supplyCategories)
        && supplyQuantities == old(supplyQuantities)
    {
      loading := true;
      if selectedStore.None? || orderDate.None? || selectedOrderType.None? {
        return Skipped;
      }
      match response {
        case Ok(data) =>
          StoreFetched(data);
          result := Fetched(data.categorias);
        case Err(message) =>
          loading := false;
          result := Failed(ValidateAlertPrefix + message);
      }
    }

    /** The success path of `fetchInsumos`: stores the draft id and the
        categories, seeds the supply record and clears `loading`. */
    method StoreFetched(data: ValidateResponse)
      requires Valid()
      modifies this`loading, this`pedidoId, this`supplyCategories, this`supplyQuantities
      ensures Valid()
      ensures !loading && pedidoId == data.idPedido && supplyCategories == Some(data)
      ensures supplyQuantities == SeedOf(AllProducts(data.categorias))
    {
      pedidoId := data.idPedido;
      supplyCategories := Some(data);
      var seeded := SeedSupplyQuantities(data.categorias);
      supplyQuantities := seeded;
      loading := false;
    }

    /** `handleValidate`: a fetch that returns categories (even none) shows
        the table and collapses every fetched category. */
    method Validate(response: Outcome<ValidateResponse>) returns (result: FetchResult)
      requires Valid()
      modifies this`loading, this`pedidoId, this`supplyCategories, this`supplyQuantities
      modifies this`showTable, this`expandedCategories
      ensures Valid()
      ensures !old(CanValidate()) ==>
        && result == Skipped && loading
        && pedidoId == old(pedidoId) && supplyCategories == old(supplyCategories)
        && supplyQuantities == old(supplyQuantities)
      ensures old(CanValidate()) && response.Ok? ==>
        && result == Fetched(response.value.categorias) && !loading
        && pedidoId == response.value.idPedido && supplyCategories == Some(response.value)
        && supplyQuantities == SeedOf(AllProducts(response.value.categorias))
        && showTable
        && expandedCategories.Keys == (set c | c in response.value.categorias :: c.id)
        && (forall id :: id in expandedCategories ==> !expandedCategories[id])
      ensures old(CanValidate()) && response.Err? ==>
        && result == Failed(ValidateAlertPrefix + response.message) && !loading
        && pedidoId == old(pedidoId) && supplyCategories == old(supplyCategories)
        && supplyQuantities == old(supplyQuantities)
      ensures !result.Fetched? ==> showTable == old(showTable) && expandedCategories == old(expandedCategories)
    {
      result := FetchInsumos(response);
      if result.Fetched? {
        showTable := true;
        var collapsed := CollapsedCategories(result.categorias);
        expandedCategories := collapsed;
      }
    }

    /** `handleSubmit`, with `outcome` standing for what the create call would
        resolve to. Its own guard is only the three selections; it posts the
        payload built from the state before the call. */
    method Submit(outcome: Outcome<CreateResponse>) returns (sent: Option<Payload>, alert: Option<string>)
      requires Valid()
      modifies this`pedidoId, this`showSuccessModal, this`loading
      ensures Valid()
      ensures !old(CanValidate()) ==>
        && sent == None && alert == None
        && pedidoId == old(pedidoId) && showSuccessModal == old(showSuccessModal) && loading == old(loading)
      ensures old(CanValidate()) ==> !loading && sent == Some(BuildPayload(
        old(pedidoId), old(selectedStore).value, old(selectedOrderType).value, old(orderDate).value,
        chickenQuantities, supplyQuantities, supplyCategories))
      ensures old(CanValidate()) && outcome.Ok? ==>
        alert == None && pedidoId == outcome.value.idPedido && showSuccessModal
      ensures old(CanValidate()) && outcome.Err? ==>
        alert == Some(SubmitAlertPrefix + outcome.message)
        && pedidoId == old(pedidoId) && showSuccessModal == old(showSuccessModal)
    {
      sent, alert := None, None;
      if selectedStore.Some? && selectedOrderType.Some? && orderDate.Some? {
        var payload := BuildPayload(
          pedidoId, selectedStore.value, selectedOrderType.value, orderDate.value,
          chickenQuantities, supplyQuantities, supplyCategories);
        sent := Some(payload);
        alert := ApplyCreateOutcome(outcome);
      }
    }

    /** What `handleSubmit` does once the create call settles: on success it
        stores the returned id and opens the success modal, on error it
        alerts; either way `loading` ends false. */
    method ApplyCreateOutcome(outcome: Outcome<CreateResponse>) returns (alert: Option<string>)
      requires Valid()
      modifies this`pedidoId, this`showSuccessModal, this`loading
      ensures Valid() && !loading
      ensures outcome.Ok? ==> alert == None && pedidoId == outcome.value.idPedido && showSuccessModal
      ensures outcome.Err? ==>
        alert == Some(SubmitAlertPrefix + outcome.message)
        && pedidoId == old(pedidoId) && showSuccessModal == old(showSuccessModal)
    {
      alert := None;
      loading := true;
      match outcome {
        case Ok(response) =>
          pedidoId := response.idPedido;
          showSuccessModal := true;
        case Err(message) =>
          alert := Some(SubmitAlertPrefix + message);
      }
      loading := false;
    }

    /** `handleReset`: clears the selections, the table, both records and the
        expanded categories; the draft id and fetched categories remain. */
    method Reset()
      requires Valid()
      modifies this`selectedStore, this`selectedOrderType, this`orderDate, this`showTable
      modifies this`chickenQuantities, this`supplyQuantities, this`expandedCategories
      ensures Valid()
      ensures selectedStore == None && selectedOrderType == None && orderDate == None && !showTable
      ensures chickenQuantities == [] && supplyQuantities == [] && expandedCategories == map[]
      ensures !CanValidate() && !CanSubmit()
    {
      selectedStore, selectedOrderType, orderDate := None, None, None;
      showTable := false;
      chickenQuantities, supplyQuantities := [], [];
      expandedCategories := map[];
    }

    /** `toggleCategory`: flips one category (an absent one reads as folded)
        and leaves the others alone. */
    method ToggleCategory(categoryId: string)
      requires Valid()
      modifies this`expandedCategories
      ensures Valid()
      ensures categoryId in expandedCategories
      ensures expandedCategories[categoryId] == !(categoryId in old(expandedCategories) && old(expandedCategories)[categoryId])
      ensures forall id :: id != categoryId ==>
        (id in expandedCategories <==> id in old(expandedCategories))
        && (id in expandedCategories ==> expandedCategories[id] == old(expandedCategories)[id])
    {
      var wasOpen := categoryId in expandedCategories && expandedCategories[categoryId];
      expandedCategories := expandedCategories[categoryId := !wasOpen];
    }
  }

  const ScenarioCloro := Product("p1", "Cloro", "Litros", 0, "Litros", Some(0))
  const ScenarioCategories := [Category("c1", "Limpieza", [ScenarioCloro])]

  lemma ScenarioTyped()
    ensures ParseQuantity("25") == 25
  {
    assert IntToText(25) == "25";
    IntTextRoundTrip(25);
  }

  lemma ScenarioSupplyRecord(typed: int)
    requires typed == 25
    ensures Put(SeedOf(AllProducts(ScenarioCategories)), "p1", typed) == [Entry("p1", 25)]
  {
    assert AllProducts(ScenarioCategories) == [ScenarioCloro] by {
      assert ScenarioCategories[..0] == [];
    }
    assert SeedOf([ScenarioCloro]) == [Entry("p1", 0)] by {
      assert [ScenarioCloro][..0] == [];
    }
  }

  lemma ScenarioDate()
    ensures FormatYmd(Date(2024, 12, 10)) == "2024-12-10"
  {
    assert NatToText(20) == "20";
    assert NatToText(202) == "202";
    assert NatToText(2024) == "2024";
    assert NatToText(12) == "12";
    assert NatToText(10) == "10";
  }

  lemma ScenarioPayload()
    ensures BuildPayload(Some("PI-100"), Store(7, "Tienda Mixco"), OrderType(2, InsumosLabel), Date(2024, 12, 10),
      [], [Entry("p1", 25)], Some(ValidateResponse(false, Some("PI-100"), ScenarioCategories)))
      == Payload(Header(Some("PI-100"), "7", "2", "2024-12-10", SupervisorId, 1, NewOrderStatus),
                 [Some(Item("p1", "Cloro", 25, "Litros"))])
  {
    ScenarioDate();
    assert AllProducts(ScenarioCategories) == [ScenarioCloro] by {
      assert ScenarioCategories[..0] == [];
    }
    assert Positive([Entry("p1", 25)]) == [Entry("p1", 25)];
  }

  lemma ScenarioSelections()
    ensures FindStore([Store(7, "Tienda Mixco")], "7") == Some(Store(7, "Tienda Mixco"))
    ensures FindOrderType([OrderType(2, InsumosLabel)], "2") == Some(OrderType(2, InsumosLabel))
  {
    assert IntToText(7) == "7" && IntToText(2) == "2";
  }

  /** Loading one store and the supply order type, picking both and a date,
      validating with draft "PI-100" and typing text that reads as 25 for
      its only product leaves the form in this state. */
  method FillSupplyOrder(typed: string) returns (view: OrderView)
    requires ParseQuantity(typed) == 25
    ensures fresh(view) && view.Valid() && view.showTable
    ensures view.selectedStore == Some(Store(7, "Tienda Mixco"))
    ensures view.selectedOrderType == Some(OrderType(2, InsumosLabel))
    ensures view.orderDate == Some(Date(2024, 12, 10))
    ensures view.pedidoId == Some("PI-100")
    ensures view.supplyCategories == Some(ValidateResponse(false, Some("PI-100"), ScenarioCategories))
    ensures view.chickenQuantities == [] && view.supplyQuantities == [Entry("p1", 25)]
  {
    view := SelectSupplyOrder();
    ValidateDraft(view);
    view.ChangeSupplyQuantity("p1", typed);
    ScenarioSupplyRecord(ParseQuantity(typed));
  }

  /** Validating the selected form against a response with draft "PI-100"
      seeds the supply record and keeps the selections. */
  method ValidateDraft(view: OrderView)
    requires view.Valid() && view.CanValidate()
    modifies view
    ensures view.Valid() && view.showTable
    ensures view.selectedStore == old(view.selectedStore)
    ensures view.selectedOrderType == old(view.selectedOrderType)
    ensures view.orderDate == old(view.orderDate)
    ensures view.chickenQuantities == old(view.chickenQuantities)
    ensures view.pedidoId == Some("PI-100")
    ensures view.supplyCategories == Some(ValidateResponse(false, Some("PI-100"), ScenarioCategories))
    ensures view.supplyQuantities == SeedOf(AllProducts(ScenarioCategories))
  {
    var response := ValidateResponse(false, Some("PI-100"), ScenarioCategories);
    var fetched := view.Validate(Ok(response));
  }

  /** The selections alone: store 7, the supply order type and a date. */
  method SelectSupplyOrder() returns (view: OrderView)
    ensures fresh(view) && view.Valid() && view.CanValidate()
    ensures view.selectedStore == Some(Store(7, "Tienda Mixco"))
    ensures view.selectedOrderType == Some(OrderType(2, InsumosLabel))
    ensures view.orderDate == Some(Date(2024, 12, 10))
    ensures view.chickenQuantities == []
  {
    view := new OrderView();
    view.LoadStores([Store(7, "Tienda Mixco")]);
    view.LoadOrderTypes([OrderType(2, InsumosLabel)]);
    ScenarioSelections();
    view.SelectStore("7");
    view.SelectOrderType("2");
    view.SelectDate(Some(Date(2024, 12, 10)));
  }

  /** Submitting that form, with a quantity text that reads as 25 (such as
      "25", by `ScenarioTyped`), posts one item carrying the fetched name and
      unit. */
  method SupplyOrderScenario(typed: string) returns (sent: Option<Payload>)
    requires ParseQuantity(typed) == 25
    ensures sent == Some(Payload(
      Header(Some("PI-100"), "7", "2", "2024-12-10", SupervisorId, 1, NewOrderStatus),
      [Some(Item("p1", "Cloro", 25, "Litros"))]))
  {
    var view := FillSupplyOrder(typed);
    var alert;
    sent, alert := view.Submit(Ok(CreateResponse(Some("PI-100"))));
    ScenarioPayload();
  }

  /** With no store selected, validating makes no call
      and the table stays hidden, but the loading flag is left raised. */
  method NoStoreScenario() returns (result: FetchResult, shown: bool, stillLoading: bool)
    ensures result == Skipped && !shown && stillLoading
  {
    var view := new OrderView();
    view.LoadOrderTypes([OrderType(2, InsumosLabel)]);
    view.SelectOrderType("2");
    view.SelectDate(Some(Date(2024, 12, 10)));
    result := view.Validate(Err("unused"));
    shown, stillLoading := view.showTable, view.loading;
  }

  /** Once the table is shown, only the date decides `canValidate`. */
  lemma ShownTableNeedsOnlyDate(view: OrderView)
    requires view.Valid() && view.showTable
    ensures view.CanValidate() <==> view.orderDate.Some?
  {
  }

  /** Clearing the date after validating leaves the submit button enabled,
      since `canSubmit` ignores the date, but pressing it posts nothing,
      since `handleSubmit` requires a date. */
  method ClearedDateScenario(typed: string) returns (canSubmit: bool, sent: Option<Payload>, alert: Option<string>)
    requires ParseQuantity(typed) == 25
    ensures canSubmit && sent == None && alert == None
  {
    var view := FillSupplyOrder(typed);
    view.SelectDate(None);
    assert view.supplyQuantities[0].qty > 0;
    canSubmit := view.CanSubmit();
    sent, alert := view.Submit(Ok(CreateResponse(Some("PI-100"))));
  }
}
