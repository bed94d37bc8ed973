/**
 * The restaurant and order deciders and views: pure state machines that turn
 * commands into events and fold events into state. Rule violations are not
 * errors: they come back as "Not..." events carrying a reason.
 */
module Domain {
  import opened Wrappers
  import opened Api
  import opened StateMachine

  // ==========================================================================
  // Restaurant
  // ==========================================================================

  /** The restaurant state. The identity is optional because the state a decider is
      handed may be a record that never received one (the application combines the
      restaurant and order states into one record); that is the case the
      `restaurantId === undefined` test covers. */
  datatype Restaurant = Restaurant(restaurantId: Option<RestaurantId>, name: RestaurantName, menu: RestaurantMenu)

  /** The business rule: a restaurant is created only where there is none yet; its menu is
      changed and orders are placed only on the very restaurant the command names. */
  predicate RestaurantAccepts(command: RestaurantCommand, state: Option<Restaurant>)
  {
    match command
    case CreateRestaurantCommand(_, _, _) => state.None? || state.value.restaurantId.None?
    case ChangeRestaurantMenuCommand(id, _) => state.Some? && state.value.restaurantId == Some(id)
    case PlaceOrderCommand(id, _, _) => state.Some? && state.value.restaurantId == Some(id)
  }

  /** `restaurantDecider.decide`: exactly one event, on the command's stream, echoing the
      command's payload; a rejection exactly when the rule refuses the command. */
  function RestaurantDecide(command: RestaurantCommand, state: Option<Restaurant>): (events: seq<RestaurantEvent>)
    ensures |events| == 1
    ensures events[0].version == 1 && !events[0].final && events[0].id == command.id
    ensures events[0].IsRejection() <==> !RestaurantAccepts(command, state)
    ensures command.CreateRestaurantCommand? ==>
      && (events[0].RestaurantCreatedEvent? || events[0].RestaurantNotCreatedEvent?)
      && events[0].name == command.name && events[0].menu == command.menu
      && (events[0].IsRejection() ==> events[0].reason == RestaurantAlreadyExist)
    ensures command.ChangeRestaurantMenuCommand? ==>
      && (events[0].RestaurantMenuChangedEvent? || events[0].RestaurantMenuNotChangedEvent?)
      && events[0].menu == command.menu
      && (events[0].IsRejection() ==> events[0].reason == RestaurantDoesNotExist)
    ensures command.PlaceOrderCommand? ==>
      && (events[0].RestaurantOrderPlacedEvent? || events[0].RestaurantOrderNotPlacedEvent?)
      && events[0].orderId == command.orderId && events[0].menuItems == command.menuItems
      && (events[0].IsRejection() ==> events[0].reason == RestaurantDoesNotExist)
  {
    match command
    case CreateRestaurantCommand(id, name, menu) =>
      if state.None? || state.value.restaurantId.None? then
        [RestaurantCreatedEvent(1, id, name, menu, false)]
      else
        [RestaurantNotCreatedEvent(1, id, name, menu, RestaurantAlreadyExist, false)]
    case ChangeRestaurantMenuCommand(id, menu) =>
      if state.Some? && state.value.restaurantId == Some(id) then
        // the source takes the id from the state, which equals the command's here
        [RestaurantMenuChangedEvent(1, state.value.restaurantId.value, menu, false)]
      else
        [RestaurantMenuNotChangedEvent(1, id, menu, RestaurantDoesNotExist, false)]
    case PlaceOrderCommand(id, orderId, menuItems) =>
      if state.Some? && state.value.restaurantId == Some(id) then
        [RestaurantOrderPlacedEvent(1, id, orderId, menuItems, false)]
      else
        [RestaurantOrderNotPlacedEvent(1, id, orderId, menuItems, RestaurantDoesNotExist, false)]
  }

  /** `restaurantDecider.evolve`. */
  function RestaurantEvolve(state: Option<Restaurant>, event: RestaurantEvent): Option<Restaurant>
  {
    match event
    case RestaurantCreatedEvent(_, id, name, menu, _) => Some(Restaurant(Some(id), name, menu))
    case RestaurantNotCreatedEvent(_, _, _, _, _, _) => state
    case RestaurantMenuChangedEvent(_, _, menu, _) =>
      if state.Some? then Some(Restaurant(state.value.restaurantId, state.value.name, menu)) else state
    case RestaurantMenuNotChangedEvent(_, _, _, _, _) => state
    case RestaurantOrderPlacedEvent(_, _, _, _, _) => state
    case RestaurantOrderNotPlacedEvent(_, _, _, _, _, _) => state
  }

  const restaurantDecider: Decider<RestaurantCommand, Option<Restaurant>, RestaurantEvent> :=
    Decider(RestaurantDecide, RestaurantEvolve, None)

  /** What each restaurant event does to the state: creation replaces it wholesale; a menu
      change replaces only the menu of an existing state; every other event leaves it alone. */
  lemma RestaurantEvolveEffect(state: Option<Restaurant>, event: RestaurantEvent)
    ensures event.RestaurantCreatedEvent? ==>
      RestaurantEvolve(state, event) == Some(Restaurant(Some(event.id), event.name, event.menu))
    ensures event.RestaurantMenuChangedEvent? ==>
      && RestaurantEvolve(state, event).Some? == state.Some?
      && (state.Some? ==> RestaurantEvolve(state, event).value == state.value.(menu := event.menu))
    ensures !event.RestaurantCreatedEvent? && !event.RestaurantMenuChangedEvent? ==>
      RestaurantEvolve(state, event) == state
  {
  }

  /** The restaurant state rebuilt from a stream's history. */
  function RestaurantStateOf(history: seq<RestaurantEvent>): Option<Restaurant>
  {
    Fold(RestaurantEvolve, restaurantDecider.initialState, history)
  }

  /** A rejection anywhere in a history can be dropped without changing the rebuilt state. */
  lemma RestaurantRejectionIsInert(before: seq<RestaurantEvent>, rejection: RestaurantEvent, after: seq<RestaurantEvent>)
    requires rejection.IsRejection()
    ensures RestaurantStateOf(before + [rejection] + after) == RestaurantStateOf(before + after)
  {
    FoldConcat(RestaurantEvolve, None, before + [rejection], after);
    FoldSnoc(RestaurantEvolve, None, before, rejection);
    FoldConcat(RestaurantEvolve, None, before, after);
  }

  /** A restaurant exists exactly when its history holds a creation event. */
  lemma {:induction false} RestaurantExistsIffCreated(history: seq<RestaurantEvent>)
    ensures RestaurantStateOf(history).Some? <==> exists i :: 0 <= i < |history| && history[i].RestaurantCreatedEvent?
    decreases |history|
  {
    if history != [] {
      var prefix, last := history[..|history| - 1], history[|history| - 1];
      assert history == prefix + [last];
      FoldSnoc(RestaurantEvolve, None, prefix, last);
      RestaurantExistsIffCreated(prefix);
      if last.RestaurantCreatedEvent? {
        assert history[|history| - 1].RestaurantCreatedEvent?;
      } else {
        assert forall i :: 0 <= i < |prefix| ==> history[i] == prefix[i];
      }
    }
  }

  /** Every state rebuilt from a history has an identity: the `undefined` case never arises
      within the restaurant decider itself. */
  lemma RestaurantStateHasIdentity(history: seq<RestaurantEvent>)
    ensures RestaurantStateOf(history).Some? ==> RestaurantStateOf(history).value.restaurantId.Some?
  {
    var inv := (s: Option<Restaurant>) => s.None? || s.value.restaurantId.Some?;
    FoldPreserves(RestaurantEvolve, inv, None, history);
  }

  /** A restaurant is created at most once: after deciding a creation command and recording
      its outcome, the same command is rejected with "Restaurant already exist!". */
  lemma CreateRestaurantIsOnce(history: seq<RestaurantEvent>, command: RestaurantCommand)
    requires command.CreateRestaurantCommand?
    ensures var outcome := RestaurantDecide(command, RestaurantStateOf(history));
      RestaurantDecide(command, RestaurantStateOf(history + outcome))
        == [RestaurantNotCreatedEvent(1, command.id, command.name, command.menu, RestaurantAlreadyExist, false)]
  {
    var s := RestaurantStateOf(history);
    var outcome := RestaurantDecide(command, s);
    assert outcome == [outcome[0]];
    FoldSnoc(RestaurantEvolve, None, history, outcome[0]);
    RestaurantStateHasIdentity(history);
  }

  /** An accepted menu change, once recorded, leaves the restaurant with the command's menu
      and its own identity and name. */
  lemma MenuChangeTakesEffect(history: seq<RestaurantEvent>, command: RestaurantCommand)
    requires command.ChangeRestaurantMenuCommand?
    requires RestaurantAccepts(command, RestaurantStateOf(history))
    ensures var before := RestaurantStateOf(history);
      RestaurantStateOf(history + RestaurantDecide(command, before))
        == Some(Restaurant(Some(command.id), before.value.name, command.menu))
  {
    var outcome := RestaurantDecide(command, RestaurantStateOf(history));
    assert outcome == [outcome[0]];
    FoldSnoc(RestaurantEvolve, None, history, outcome[0]);
  }

  /** Placing an order, accepted or not, never changes the restaurant state. */
  lemma PlaceOrderKeepsRestaurant(history: seq<RestaurantEvent>, command: RestaurantCommand)
    requires command.PlaceOrderCommand?
    ensures RestaurantStateOf(history + RestaurantDecide(command, RestaurantStateOf(history))) == RestaurantStateOf(history)
  {
    var outcome := RestaurantDecide(command, RestaurantStateOf(history));
    assert outcome == [outcome[0]];
    FoldSnoc(RestaurantEvolve, None, history, outcome[0]);
  }

  // ==========================================================================
  // Restaurant view
  // ==========================================================================

  /** The view state has the same fields as the decider state. */
  type RestaurantView = Restaurant

  /** `restaurantView.evolve`, written separately in the source. */
  function RestaurantViewEvolve(state: Option<RestaurantView>, event: RestaurantEvent): Option<RestaurantView>
  {
    match event
    case RestaurantCreatedEvent(_, id, name, menu, _) => Some(Restaurant(Some(id), name, menu))
    case RestaurantNotCreatedEvent(_, _, _, _, _, _) => state
    case RestaurantMenuChangedEvent(_, _, menu, _) =>
      if state.Some? then Some(Restaurant(state.value.restaurantId, state.value.name, menu)) else state
    case RestaurantMenuNotChangedEvent(_, _, _, _, _) => state
    case RestaurantOrderPlacedEvent(_, _, _, _, _) => state
    case RestaurantOrderNotPlacedEvent(_, _, _, _, _, _) => state
  }

  const restaurantView: View<Option<RestaurantView>, RestaurantEvent> := View(RestaurantViewEvolve, None)

  /** The view projects every history to the very state the decider rebuilds from it. */
  lemma RestaurantViewMatchesDecider(history: seq<RestaurantEvent>)
    ensures restaurantView.initialState == restaurantDecider.initialState == None
    ensures forall s, e :: restaurantView.evolve(s, e) == restaurantDecider.evolve(s, e)
    ensures Fold(restaurantView.evolve, restaurantView.initialState, history) == RestaurantStateOf(history)
  {
    FoldAgrees(RestaurantViewEvolve, RestaurantEvolve, None, history);
  }

  // ==========================================================================
  // Order
  // ==========================================================================

  /** The order state; as for restaurants, the identity may be absent from a record
      the decider is handed. */
  datatype Order = Order(orderId: Option<OrderId>, restaurantId: RestaurantId, menuItems: seq<MenuItem>, status: OrderStatus)

  /** The business rule: an order is created only where there is none yet, and only the
      existing order the command names can be marked as prepared. */
  predicate OrderAccepts(command: OrderCommand, state: Option<Order>)
  {
    match command
    case CreateOrderCommand(_, _, _) => state.None? || state.value.orderId.None?
    case MarkOrderAsPreparedCommand(id) => state.Some? && state.value.orderId == Some(id)
  }

  /** `orderDecider.decide`: exactly one event, on the command's stream, echoing the
      command's payload; a rejection exactly when the rule refuses the command. */
  function OrderDecide(command: OrderCommand, state: Option<Order>): (events: seq<OrderEvent>)
    ensures |events| == 1
    ensures events[0].version == 1 && !events[0].final && events[0].id == command.id
    ensures events[0].IsRejection() <==> !OrderAccepts(command, state)
    ensures command.CreateOrderCommand? ==>
      && (events[0].OrderCreatedEvent? || events[0].OrderNotCreatedEvent?)
      && events[0].restaurantId == command.restaurantId && events[0].menuItems == command.menuItems
      && (events[0].IsRejection() ==> events[0].reason == OrderAlreadyExist)
    ensures command.MarkOrderAsPreparedCommand? ==>
      && (events[0].OrderPreparedEvent? || events[0].OrderNotPreparedEvent?)
      && (events[0].IsRejection() ==> events[0].reason == OrderDoesNotExist)
  {
    match command
    case CreateOrderCommand(id, restaurantId, menuItems) =>
      if state.None? || state.value.orderId.None? then
        [OrderCreatedEvent(1, id, restaurantId, menuItems, false)]
      else
        [OrderNotCreatedEvent(1, id, restaurantId, OrderAlreadyExist, menuItems, false)]
    case MarkOrderAsPreparedCommand(id) =>
      if state.Some? && state.value.orderId == Some(id) then
        // the source takes the id from the state, which equals the command's here
        [OrderPreparedEvent(1, state.value.orderId.value, false)]
      else
        [OrderNotPreparedEvent(1, id, OrderDoesNotExist, false)]
  }

  /** `orderDecider.evolve`. */
  function OrderEvolve(state: Option<Order>, event: OrderEvent): Option<Order>
  {
    match event
    case OrderCreatedEvent(_, id, restaurantId, menuItems, _) => Some(Order(Some(id), restaurantId, menuItems, Created))
    case OrderNotCreatedEvent(_, _, _, _, _, _) => state
    case OrderPreparedEvent(_, _, _) =>
      if state.Some? then Some(Order(state.value.orderId, state.value.restaurantId, state.value.menuItems, Prepared)) else state
    case OrderNotPreparedEvent(_, _, _, _) => state
  }

  const orderDecider: Decider<OrderCommand, Option<Order>, OrderEvent> :=
    Decider(OrderDecide, OrderEvolve, None)

  /** What each order event does to the state: creation builds a CREATED order from the event;
      preparation sets the status of an existing order to PREPARED and keeps the rest;
      rejections leave the state alone. */
  lemma OrderEvolveEffect(state: Option<Order>, event: OrderEvent)
    ensures event.OrderCreatedEvent? ==>
      OrderEvolve(state, event) == Some(Order(Some(event.id), event.restaurantId, event.menuItems, Created))
    ensures event.OrderPreparedEvent? ==>
      && OrderEvolve(state, event).Some? == state.Some?
      && (state.Some? ==> OrderEvolve(state, event).value == state.value.(status := Prepared))
    ensures event.IsRejection() ==> OrderEvolve(state, event) == state
  {
  }

  /** The order state rebuilt from a stream's history. */
  function OrderStateOf(history: seq<OrderEvent>): Option<Order>
  {
    Fold(OrderEvolve, orderDecider.initialState, history)
  }

  /** A rejection anywhere in a history can be dropped without changing the rebuilt state. */
  lemma OrderRejectionIsInert(before: seq<OrderEvent>, rejection: OrderEvent, after: seq<OrderEvent>)
    requires rejection.IsRejection()
    ensures OrderStateOf(before + [rejection] + after) == OrderStateOf(before + after)
  {
    FoldConcat(OrderEvolve, None, before + [rejection], after);
    FoldSnoc(OrderEvolve, None, before, rejection);
    FoldConcat(OrderEvolve, None, before, after);
  }

  /** An order exists exactly when its history holds a creation event. */
  lemma {:induction false} OrderExistsIffCreated(history: seq<OrderEvent>)
    ensures OrderStateOf(history).Some? <==> exists i :: 0 <= i < |history| && history[i].OrderCreatedEvent?
    decreases |history|
  {
    if history != [] {
      var prefix, last := history[..|history| - 1], history[|history| - 1];
      assert history == prefix + [last];
      FoldSnoc(OrderEvolve, None, prefix, last);
      OrderExistsIffCreated(prefix);
      if last.OrderCreatedEvent? {
        assert history[|history| - 1].OrderCreatedEvent?;
      } else {
        assert forall i :: 0 <= i < |prefix| ==> history[i] == prefix[i];
      }
    }
  }

  /** Every order rebuilt from a history has an identity and a status other than NOT_CREATED:
      neither the `undefined` case nor the NOT_CREATED status arises within the order decider. */
  lemma OrderStateIsCreatedOrPrepared(history: seq<OrderEvent>)
    ensures OrderStateOf(history).Some? ==>
      OrderStateOf(history).value.orderId.Some? && OrderStateOf(history).value.status != NotCreated
  {
    var inv := (s: Option<Order>) => s.None? || (s.value.orderId.Some? && s.value.status != NotCreated);
    FoldPreserves(OrderEvolve, inv, None, history);
  }

  /** An order is created at most once: after deciding a creation command and recording its
      outcome, the same command is rejected with "Order already exist!". */
  lemma CreateOrderIsOnce(history: seq<OrderEvent>, command: OrderCommand)
    requires command.CreateOrderCommand?
    ensures var outcome := OrderDecide(command, OrderStateOf(history));
      OrderDecide(command, OrderStateOf(history + outcome))
        == [OrderNotCreatedEvent(1, command.id, command.restaurantId, OrderAlreadyExist, command.menuItems, false)]
  {
    var outcome := OrderDecide(command, OrderStateOf(history));
    assert outcome == [outcome[0]];
    FoldSnoc(OrderEvolve, None, history, outcome[0]);
    OrderStateIsCreatedOrPrepared(history);
  }

  /** A freshly created order can be marked as prepared, and then it is PREPARED with the
      restaurant and items it was created with. */
  lemma CreatedOrderCanBePrepared(history: seq<OrderEvent>, create: OrderCommand)
    requires create.CreateOrderCommand?
    requires OrderAccepts(create, OrderStateOf(history))
    ensures var created := history + OrderDecide(create, OrderStateOf(history));
      var prepare := MarkOrderAsPreparedCommand(create.id);
      && OrderAccepts(prepare, OrderStateOf(created))
      && OrderStateOf(created + OrderDecide(prepare, OrderStateOf(created)))
           == Some(Order(Some(create.id), create.restaurantId, create.menuItems, Prepared))
  {
    var outcome := OrderDecide(create, OrderStateOf(history));
    assert outcome == [outcome[0]];
    FoldSnoc(OrderEvolve, None, history, outcome[0]);
    var created := history + outcome;
    var prepare := MarkOrderAsPreparedCommand(create.id);
    var next := OrderDecide(prepare, OrderStateOf(created));
    assert next == [next[0]];
    FoldSnoc(OrderEvolve, None, created, next[0]);
  }

  /** Marking an order as prepared, accepted or not, never loses the order or changes its identity. */
  lemma PrepareKeepsOrder(history: seq<OrderEvent>, command: OrderCommand)
    requires command.MarkOrderAsPreparedCommand?
    ensures var before := OrderStateOf(history);
      var after := OrderStateOf(history + OrderDecide(command, before));
      && after.Some? == before.Some?
      && (before.Some? ==> after.value.orderId == before.value.orderId
                           && after.value.restaurantId == before.value.restaurantId
                           && after.value.menuItems == before.value.menuItems)
      && (OrderAccepts(command, before) ==> after.value.status == Prepared)
  {
    var outcome := OrderDecide(command, OrderStateOf(history));
    assert outcome == [outcome[0]];
    FoldSnoc(OrderEvolve, None, history, outcome[0]);
  }

  // ==========================================================================
  // Order view
  // ==========================================================================

  /** The view state has the same fields as the decider state. */
  type OrderView = Order

  /** `orderView.evolve`, written separately in the source. */
  function OrderViewEvolve(state: Option<OrderView>, event: OrderEvent): Option<OrderView>
  {
    match event
    case OrderCreatedEvent(_, id, restaurantId, menuItems, _) => Some(Order(Some(id), restaurantId, menuItems, Created))
    case OrderNotCreatedEvent(_, _, _, _, _, _) => state
    case OrderPreparedEvent(_, _, _) =>
      if state.Some? then Some(Order(state.value.orderId, state.value.restaurantId, state.value.menuItems, Prepared)) else state
    case OrderNotPreparedEvent(_, _, _, _) => state
  }

  const orderView: View<Option<OrderView>, OrderEvent> := View(OrderViewEvolve, None)

  /** The view projects every history to the very state the decider rebuilds from it. */
  lemma OrderViewMatchesDecider(history: seq<OrderEvent>)
    ensures orderView.initialState == orderDecider.initialState == None
    ensures forall s, e :: orderView.evolve(s, e) == orderDecider.evolve(s, e)
    ensures Fold(orderView.evolve, orderView.initialState, history) == OrderStateOf(history)
  {
    FoldAgrees(OrderViewEvolve, OrderEvolve, None, history);
  }
}
